/**
 A tick of the monitor and the executor at once: the executor may check and insert trades between any two
 of the tick's own events, and the run still cuts into ticks, commits, rollbacks and rest.
 */
module Weaving {
  import opened Wrappers
  import opened Prices
  import opened StopRules
  import opened Rows
  import opened Reconcile
  import opened Links
  import opened Book
  import opened Invariants
  import opened Steps
  import opened Ladder
  import opened RollUps
  import opened TickRules
  import opened StopRuns

  /** How far a tick has come: its price is latched; the pass is over and the stops of the first `k` legs are
      dealt with; or an exception ended it. */
  datatype Stage = Latching | Moving(k: nat) | Ended

  /** The trade and the legs a tick is about are there when it begins. */
  predicate Begins(r: Act, d: Db) {
    && (r.Review? || r.Break?) && r.t < |d.trades| && LegsOfTrade(d, r.t, r.ids) && Distinct(r.ids)
  }

  /** The stops of the first `k` legs dealt with, and perhaps more trades. */
  ghost predicate MovedAmid(a: Db, b: Db, t: nat, v: View, price: real, ids: seq<nat>, staged: bool, k: nat)
    requires t < |a.trades| && LegsOfTrade(a, t, ids)
  {
    k <= |ids| && exists l: Db ::
      LatchedAmid(a, l, t, v, price) && Gains(StopsUpTo(l, t, v, price, ids, staged, MfeOf(a, t, v, price), k), b)
  }

  function StopsUpTo(l: Db, t: nat, v: View, price: real, ids: seq<nat>, staged: bool, mfe: real, k: nat): Db
    requires t < |l.trades| && LegsOfTrade(l, t, ids) && k <= |ids|
  {
    var r := Reconciled(l, t, SnapOf(v, price, staged), ids, false);
    StopsMoved(r, t, ids[..k], v, price, TpLevels(r.legs, t), HitsOf(r, t, r.trades[t].side, mfe))
  }

  ghost predicate Underway(r: Act, a: World, w: World, stage: Stage)
    requires Begins(r, a.ses)
  {
    && Gains(a.db, w.db)
    && match stage
       case Latching => LatchedAmid(a.ses, w.ses, r.t, r.v, r.price)
       case Moving(k) => MovedAmid(a.ses, w.ses, r.t, r.v, r.price, r.ids, r.staged, k)
       case Ended => BrokenAmid(a.ses, w.ses, r.t, r.v, r.price, r.ids, r.staged)
  }

  // ---- one event -----------------------------------------------------------------------------------

  predicate OfExecutor(e: Event) { e.Check? || e.HandOver? || e.DropDraft? }

  lemma ExecutorGains(cfg: RiskCfg, w: World, v: World, e: Event)
    requires Inv(cfg, w) && Step(cfg, w, v, e) && OfExecutor(e)
    ensures Gains(w.db, v.db) && Gains(w.ses, v.ses)
  {
    GainsNothing(w.db);
    GainsNothing(w.ses);
  }

  lemma MovedGains(a: Db, b: Db, c: Db, t: nat, v: View, price: real, ids: seq<nat>, staged: bool, k: nat)
    requires t < |a.trades| && LegsOfTrade(a, t, ids) && MovedAmid(a, b, t, v, price, ids, staged, k) && Gains(b, c)
    ensures MovedAmid(a, c, t, v, price, ids, staged, k)
  {
    var mfe := MfeOf(a, t, v, price);
    var l: Db :| LatchedAmid(a, l, t, v, price) && Gains(StopsUpTo(l, t, v, price, ids, staged, mfe, k), b);
    GainsMore(StopsUpTo(l, t, v, price, ids, staged, mfe, k), b, c);
  }

  lemma BrokenGains(a: Db, b: Db, c: Db, t: nat, v: View, price: real, ids: seq<nat>, staged: bool)
    requires t < |a.trades| && LegsOfTrade(a, t, ids) && BrokenAmid(a, b, t, v, price, ids, staged) && Gains(b, c)
    ensures BrokenAmid(a, c, t, v, price, ids, staged)
  {
    var snap := SnapOf(v, price, staged);
    var l: Db, n: nat, cut: bool :| LatchedAmid(a, l, t, v, price) && CutAt(l, t, snap, ids, v.mute, n, cut)
                                    && Gains(Reconciled(l, t, snap, ids[..n], cut), b);
    GainsMore(Reconciled(l, t, snap, ids[..n], cut), b, c);
  }

  /** An event of the executor leaves the tick where it is. */
  lemma ExecutorKeeps(cfg: RiskCfg, r: Act, a: World, w: World, v: World, e: Event, stage: Stage)
    requires Inv(cfg, w) && Step(cfg, w, v, e) && OfExecutor(e) && Begins(r, a.ses) && Underway(r, a, w, stage)
    ensures Underway(r, a, v, stage)
  {
    ExecutorGains(cfg, w, v, e);
    GainsMore(a.db, w.db, v.db);
    match stage
    case Latching => GainsMore(Latched(a.ses, r.t, MfeOf(a.ses, r.t, r.v, r.price)), w.ses, v.ses);
    case Moving(k) => MovedGains(a.ses, w.ses, v.ses, r.t, r.v, r.price, r.ids, r.staged, k);
    case Ended => BrokenGains(a.ses, w.ses, v.ses, r.t, r.v, r.price, r.ids, r.staged);
  }

  /** The stop of leg `i` is what the rules want, or cannot be moved. */
  predicate Still(d: Db, r: Act, mfe: real, i: nat)
    requires (r.Review? || r.Break?) && r.t < |d.trades| && i < |d.legs|
  {
    RatchetedIn(d, r, mfe, i) == d.legs[i]
  }

  function RatchetedIn(d: Db, r: Act, mfe: real, i: nat): Leg
    requires (r.Review? || r.Break?) && r.t < |d.trades| && i < |d.legs|
  {
    var side := d.trades[r.t].side;
    Ratcheted(side, r.v, r.price, TpLevels(d.legs, r.t), HitsOf(d, r.t, side, mfe), d.legs[i])
  }

  /** Legs `ids[k..m]` stay still. */
  ghost predicate StillBetween(r: Act, d: Db, mfe: real, k: nat, m: nat)
    requires r.Review? || r.Break?
  {
    r.t < |d.trades| && forall j :: k <= j < m && j < |r.ids| ==> r.ids[j] < |d.legs| && Still(d, r, mfe, r.ids[j])
  }

  lemma MovedSeesSame(l: Db, w: Db, r: Act, mfe: real, k: nat, i: nat)
    requires Begins(r, l) && k <= |r.ids| && i < |l.legs|
    requires Gains(StopsUpTo(l, r.t, r.v, r.price, r.ids, r.staged, mfe, k), w)
    ensures var p := Reconciled(l, r.t, SnapOf(r.v, r.price, r.staged), r.ids, false);
            && r.t < |w.trades| && i < |w.legs| && w.trades[r.t].side == p.trades[r.t].side
            && TpLevels(w.legs, r.t) == TpLevels(p.legs, r.t)
            && HitsOf(w, r.t, w.trades[r.t].side, mfe) == HitsOf(p, r.t, p.trades[r.t].side, mfe)
            && w.legs[i] == StopsUpTo(l, r.t, r.v, r.price, r.ids, r.staged, mfe, k).legs[i]
  {
    var p := Reconciled(l, r.t, SnapOf(r.v, r.price, r.staged), r.ids, false);
    var tps, hits := TpLevels(p.legs, r.t), HitsOf(p, r.t, p.trades[r.t].side, mfe);
    MovedHits(p, r.t, r.ids[..k], r.v, r.price, tps, hits);
    var m := StopsUpTo(l, r.t, r.v, r.price, r.ids, r.staged, mfe, k);
    GainsKeeps(m, w, r.t);
    SameLevels(m.legs, w.legs, r.t);
    assert TpHits(w.legs, r.t) == TpHits(m.legs, r.t);
  }

  lemma GainsSet(m: Db, w: Db, i: nat, leg: Leg)
    requires Gains(m, w) && i < |m.legs|
    ensures Gains(SetLeg(m, i, leg), SetLeg(w, i, leg))
  {}

  /** The specification's next leg. */
  lemma UpToNext(l: Db, r: Act, mfe: real, k: nat)
    requires Begins(r, l) && 0 < k <= |r.ids|
    ensures var p := Reconciled(l, r.t, SnapOf(r.v, r.price, r.staged), r.ids, false);
            var m, i := StopsUpTo(l, r.t, r.v, r.price, r.ids, r.staged, mfe, k - 1), r.ids[k - 1];
            && m.legs[i] == p.legs[i]
            && StopsUpTo(l, r.t, r.v, r.price, r.ids, r.staged, mfe, k) == SetLeg(m, i, RatchetedIn(p, r, mfe, i))
  {
    var p := Reconciled(l, r.t, SnapOf(r.v, r.price, r.staged), r.ids, false);
    var tps, hits := TpLevels(p.legs, r.t), HitsOf(p, r.t, p.trades[r.t].side, mfe);
    StopsMovedNext(p, r.t, r.ids, k - 1, r.v, r.price, tps, hits);
  }

  /** Dealing with leg `ids[k - 1]`: an edit that ratchets it. */
  lemma MoveOne(l: Db, w: Db, v: Db, r: Act, mfe: real, k: nat)
    requires Begins(r, l) && 0 < k <= |r.ids|
    requires Gains(StopsUpTo(l, r.t, r.v, r.price, r.ids, r.staged, mfe, k - 1), w)
    requires r.t < |w.trades| && r.ids[k - 1] < |w.legs|
    requires v == SetLeg(w, r.ids[k - 1], RatchetedIn(w, r, mfe, r.ids[k - 1]))
    ensures Gains(StopsUpTo(l, r.t, r.v, r.price, r.ids, r.staged, mfe, k), v)
  {
    var p, i := Reconciled(l, r.t, SnapOf(r.v, r.price, r.staged), r.ids, false), r.ids[k - 1];
    MovedSeesSame(l, w, r, mfe, k - 1, i);
    UpToNext(l, r, mfe, k);
    assert RatchetedIn(w, r, mfe, i) == RatchetedIn(p, r, mfe, i);
    GainsSet(StopsUpTo(l, r.t, r.v, r.price, r.ids, r.staged, mfe, k - 1), w, i, RatchetedIn(w, r, mfe, i));
  }

  /** Legs that stay still are dealt with by no event at all. */
  lemma {:induction false} SkipStill(l: Db, w: Db, r: Act, mfe: real, k: nat, m: nat)
    requires Begins(r, l) && k <= m <= |r.ids|
    requires Gains(StopsUpTo(l, r.t, r.v, r.price, r.ids, r.staged, mfe, k), w)
    requires StillBetween(r, w, mfe, k, m)
    ensures Gains(StopsUpTo(l, r.t, r.v, r.price, r.ids, r.staged, mfe, m), w)
    decreases m - k
  {
    if k < m {
      assert Still(w, r, mfe, r.ids[k]);
      assert SetLeg(w, r.ids[k], w.legs[r.ids[k]]).legs == w.legs;
      MoveOne(l, w, w, r, mfe, k + 1);
      assert StillBetween(r, w, mfe, k + 1, m);
      SkipStill(l, w, r, mfe, k + 1, m);
    }
  }

  // ---- the events of a tick, and whatever comes between --------------------------------------------

  /** One event while a tick is under way: the executor's; the pass, whole or ended by an exception; or the
      move of the next stop that does not stay still. `a` is the world in which the tick began. */
  ghost predicate WeaveStep(r: Act, a: World, w: World, e: Event, from: Stage, to: Stage)
    requires Begins(r, a.ses)
  {
    || (OfExecutor(e) && to == from)
    || (from.Latching? && to == Moving(0) && e == Pass(r.t, SnapOf(r.v, r.price, r.staged), r.ids, false))
    || (from.Latching? && to == Ended && EndsTick(r, w, e))
    || (from.Moving? && to.Moving? && MovesNext(r, w, MfeOf(a.ses, r.t, r.v, r.price), e, from.k, to.k))
  }

  /** The pass that an exception ends, or after which one is raised. */
  ghost predicate EndsTick(r: Act, w: World, e: Event)
    requires r.Review? || r.Break?
  {
    exists n: nat, cut: bool :: EndsPass(r, w, e, n, cut)
  }

  ghost predicate EndsPass(r: Act, w: World, e: Event, n: nat, cut: bool)
    requires r.Review? || r.Break?
  {
    var snap := SnapOf(r.v, r.price, r.staged);
    CutAt(w.ses, r.t, snap, r.ids, r.v.mute, n, cut) && e == Pass(r.t, snap, r.ids[..n], cut)
  }

  /** Legs `ids[k..m-1]` stay still, and the edit ratchets `ids[m-1]`. */
  ghost predicate MovesNext(r: Act, w: World, mfe: real, e: Event, k: nat, m: nat)
    requires r.Review? || r.Break?
  {
    && k < m <= |r.ids| && StillBetween(r, w.ses, mfe, k, m - 1) && r.ids[m - 1] < |w.ses.legs|
    && e == Edit(r.t, SetLeg(w.ses, r.ids[m - 1], RatchetedIn(w.ses, r, mfe, r.ids[m - 1])))
  }

  lemma PassWeaves(a: Db, w: Db, v: Db, r: Act)
    requires Begins(r, a) && LatchedAmid(a, w, r.t, r.v, r.price)
    requires v == Reconciled(w, r.t, SnapOf(r.v, r.price, r.staged), r.ids, false)
    ensures MovedAmid(a, v, r.t, r.v, r.price, r.ids, r.staged, 0)
  {
    GainsNothing(v);
    assert r.ids[..0] == [];
    assert StopsUpTo(w, r.t, r.v, r.price, r.ids, r.staged, MfeOf(a, r.t, r.v, r.price), 0).legs == v.legs;
  }

  lemma EndWeaves(a: Db, w: Db, v: Db, r: Act, n: nat, cut: bool)
    requires Begins(r, a) && LatchedAmid(a, w, r.t, r.v, r.price)
    requires CutAt(w, r.t, SnapOf(r.v, r.price, r.staged), r.ids, r.v.mute, n, cut)
    requires v == Reconciled(w, r.t, SnapOf(r.v, r.price, r.staged), r.ids[..n], cut)
    ensures BrokenAmid(a, v, r.t, r.v, r.price, r.ids, r.staged)
  {
    GainsNothing(v);
  }

  lemma SkipThenMove(l: Db, w: Db, v: Db, r: Act, mfe: real, k: nat, m: nat)
    requires Begins(r, l) && k < m <= |r.ids| && r.t < |w.trades| && r.ids[m - 1] < |w.legs|
    requires Gains(StopsUpTo(l, r.t, r.v, r.price, r.ids, r.staged, mfe, k), w)
    requires StillBetween(r, w, mfe, k, m - 1) && v == SetLeg(w, r.ids[m - 1], RatchetedIn(w, r, mfe, r.ids[m - 1]))
    ensures Gains(StopsUpTo(l, r.t, r.v, r.price, r.ids, r.staged, mfe, m), v)
  {
    SkipStill(l, w, r, mfe, k, m - 1);
    MoveOne(l, w, v, r, mfe, m);
  }

  lemma MoveWeaves(a: Db, w: Db, v: Db, r: Act, k: nat, m: nat)
    requires Begins(r, a) && MovedAmid(a, w, r.t, r.v, r.price, r.ids, r.staged, k) && k < m <= |r.ids|
    requires StillBetween(r, w, MfeOf(a, r.t, r.v, r.price), k, m - 1) && r.ids[m - 1] < |w.legs|
    requires v == SetLeg(w, r.ids[m - 1], RatchetedIn(w, r, MfeOf(a, r.t, r.v, r.price), r.ids[m - 1]))
    ensures MovedAmid(a, v, r.t, r.v, r.price, r.ids, r.staged, m)
  {
    var mfe := MfeOf(a, r.t, r.v, r.price);
    var l: Db :| LatchedAmid(a, l, r.t, r.v, r.price)
                 && Gains(StopsUpTo(l, r.t, r.v, r.price, r.ids, r.staged, mfe, k), w);
    LatchBegins(a, l, r);
    SkipThenMove(l, w, v, r, mfe, k, m);
  }

  lemma LatchBegins(a: Db, l: Db, r: Act)
    requires Begins(r, a) && LatchedAmid(a, l, r.t, r.v, r.price)
    ensures Begins(r, l)
  {}

  lemma StepMoves(r: Act, a: World, w: World, v: World, e: Event, k: nat, m: nat)
    requires e.Edit? && v.db == w.db && v.ses == e.edited && Begins(r, a.ses) && Underway(r, a, w, Moving(k))
    requires MovesNext(r, w, MfeOf(a.ses, r.t, r.v, r.price), e, k, m)
    ensures Underway(r, a, v, Moving(m))
  {
    MoveWeaves(a.ses, w.ses, v.ses, r, k, m);
  }

  lemma StepPasses(cfg: RiskCfg, r: Act, a: World, w: World, v: World, e: Event)
    requires Step(cfg, w, v, e) && Begins(r, a.ses) && Underway(r, a, w, Latching)
    requires e == Pass(r.t, SnapOf(r.v, r.price, r.staged), r.ids, false)
    ensures Underway(r, a, v, Moving(0))
  {
    assert v.db == w.db;
    PassWeaves(a.ses, w.ses, v.ses, r);
  }

  lemma StepEnds(cfg: RiskCfg, r: Act, a: World, w: World, v: World, e: Event)
    requires Step(cfg, w, v, e) && Begins(r, a.ses) && Underway(r, a, w, Latching) && EndsTick(r, w, e)
    ensures Underway(r, a, v, Ended)
  {
    var n: nat, cut: bool :| EndsPass(r, w, e, n, cut);
    assert v.db == w.db;
    EndWeaves(a.ses, w.ses, v.ses, r, n, cut);
  }

  lemma EditSets(cfg: RiskCfg, w: World, v: World, e: Event)
    requires Step(cfg, w, v, e) && e.Edit?
    ensures v.db == w.db && v.ses == e.edited
  {}

  /** Each event moves the tick on, or leaves it. */
  lemma StepWeaves(cfg: RiskCfg, r: Act, a: World, w: World, v: World, e: Event, from: Stage, to: Stage)
    requires Inv(cfg, w) && Step(cfg, w, v, e) && Begins(r, a.ses)
    requires Underway(r, a, w, from) && WeaveStep(r, a, w, e, from, to)
    ensures Underway(r, a, v, to)
  {
    if OfExecutor(e) {
      ExecutorKeeps(cfg, r, a, w, v, e, from);
    } else if from.Moving? {
      EditSets(cfg, w, v, e);
      StepMoves(r, a, w, v, e, from.k, to.k);
    } else if to.Moving? {
      StepPasses(cfg, r, a, w, v, e);
    } else {
      StepEnds(cfg, r, a, w, v, e);
    }
  }

  /** From event `from` on the run is the tick `r`, woven with events of the executor: first the latch, then
      the further stages. */
  ghost predicate Weaves(ws: seq<World>, es: seq<Event>, r: Act, from: nat, stages: seq<Stage>)
    requires |ws| == |es| + 1
  {
    && stages != [] && from + |stages| <= |es| && Begins(r, ws[from].ses)
    && es[from] == Edit(r.t, Latched(ws[from].ses, r.t, MfeOf(ws[from].ses, r.t, r.v, r.price)))
    && stages[0] == Latching && (forall k :: 0 <= k < |stages| - 1 ==> WovenAt(ws, es, r, from, stages, k))
  }

  /** The tick up to event `to`, with the last stage completing it. */
  ghost predicate Woven(ws: seq<World>, es: seq<Event>, r: Act, from: nat, to: nat, stages: seq<Stage>)
    requires |ws| == |es| + 1
  {
    && Weaves(ws, es, r, from, stages) && to == from + |stages|
    && Completes(r, ws[from], ws[to].ses, stages[|stages| - 1])
  }

  /** The process dies in the middle of the tick, at whatever stage. */
  ghost predicate CutOff(ws: seq<World>, es: seq<Event>, r: Act, from: nat, to: nat, stages: seq<Stage>)
    requires |ws| == |es| + 1
  {
    Weaves(ws, es, r, from, stages) && to == from + |stages| + 1 && to <= |es| && es[to - 1] == Crash
  }

  ghost predicate WovenAt(ws: seq<World>, es: seq<Event>, r: Act, from: nat, stages: seq<Stage>, k: nat)
    requires |ws| == |es| + 1 && from + |stages| <= |es| && k + 1 < |stages| && Begins(r, ws[from].ses)
  {
    WeaveStep(r, ws[from], ws[from + 1 + k], es[from + 1 + k], stages[k], stages[k + 1])
  }

  ghost predicate Completes(r: Act, a: World, d: Db, stage: Stage)
    requires Begins(r, a.ses)
  {
    if r.Break? then stage.Ended?
    else stage.Moving? && StillBetween(r, d, MfeOf(a.ses, r.t, r.v, r.price), stage.k, |r.ids|)
  }

  lemma WovenStarts(cfg: RiskCfg, ws: seq<World>, es: seq<Event>, r: Act, from: nat)
    requires Run(cfg, ws, es) && from < |es| && Begins(r, ws[from].ses)
    requires es[from] == Edit(r.t, Latched(ws[from].ses, r.t, MfeOf(ws[from].ses, r.t, r.v, r.price)))
    ensures Underway(r, ws[from], ws[from + 1], Latching)
  {
    assert StepAt(cfg, ws, es, from);
    GainsNothing(ws[from].db);
    GainsNothing(ws[from + 1].ses);
  }

  lemma WovenNext(cfg: RiskCfg, ws: seq<World>, es: seq<Event>, r: Act, from: nat, stages: seq<Stage>, k: nat)
    requires Run(cfg, ws, es) && from + |stages| <= |es| && 0 < k < |stages| && Begins(r, ws[from].ses)
    requires WovenAt(ws, es, r, from, stages, k - 1) && Underway(r, ws[from], ws[from + k], stages[k - 1])
    ensures Underway(r, ws[from], ws[from + 1 + k], stages[k])
  {
    RunKeeps(cfg, ws, es, from + k);
    assert StepAt(cfg, ws, es, from + k);
    StepWeaves(cfg, r, ws[from], ws[from + k], ws[from + 1 + k], es[from + k], stages[k - 1], stages[k]);
  }

  lemma {:induction false} WovenUnderway(cfg: RiskCfg, ws: seq<World>, es: seq<Event>, r: Act, from: nat,
                                         stages: seq<Stage>, k: nat)
    requires Run(cfg, ws, es) && Weaves(ws, es, r, from, stages) && k < |stages|
    ensures Underway(r, ws[from], ws[from + 1 + k], stages[k])
  {
    if k == 0 {
      WovenStarts(cfg, ws, es, r, from);
    } else {
      WovenUnderway(cfg, ws, es, r, from, stages, k - 1);
      WovenNext(cfg, ws, es, r, from, stages, k);
    }
  }

  lemma UpToAll(l: Db, t: nat, v: View, price: real, ids: seq<nat>, staged: bool, mfe: real)
    requires t < |l.trades| && LegsOfTrade(l, t, ids)
    ensures StopsUpTo(l, t, v, price, ids, staged, mfe, |ids|) == ReviewedFrom(l, t, v, price, ids, staged, mfe)
  {
    assert ids[..|ids|] == ids;
  }

  lemma MovedCompletes(a: Db, w: Db, r: Act, k: nat)
    requires Begins(r, a) && MovedAmid(a, w, r.t, r.v, r.price, r.ids, r.staged, k)
    requires StillBetween(r, w, MfeOf(a, r.t, r.v, r.price), k, |r.ids|)
    ensures ReviewedAmid(a, w, r.t, r.v, r.price, r.ids, r.staged)
  {
    var mfe := MfeOf(a, r.t, r.v, r.price);
    var l: Db :| LatchedAmid(a, l, r.t, r.v, r.price)
                 && Gains(StopsUpTo(l, r.t, r.v, r.price, r.ids, r.staged, mfe, k), w);
    LatchBegins(a, l, r);
    SkipStill(l, w, r, mfe, k, |r.ids|);
    UpToAll(l, r.t, r.v, r.price, r.ids, r.staged, mfe);
  }

  lemma ReviewedActs(r: Act, a: World, w: World, k: nat)
    requires r.Review? && Begins(r, a.ses) && Underway(r, a, w, Moving(k))
    requires StillBetween(r, w.ses, MfeOf(a.ses, r.t, r.v, r.price), k, |r.ids|)
    ensures Acts(r, a, w)
  {
    MovedCompletes(a.ses, w.ses, r, k);
  }

  lemma BrokenActs(r: Act, a: World, w: World)
    requires r.Break? && Begins(r, a.ses) && Underway(r, a, w, Ended)
    ensures Acts(r, a, w)
  {}

  /** A tick woven with whatever the executor checks and inserts meanwhile is one act of the run. */
  lemma WovenActs(cfg: RiskCfg, ws: seq<World>, es: seq<Event>, r: Act, from: nat, to: nat, stages: seq<Stage>)
    requires Run(cfg, ws, es) && Woven(ws, es, r, from, to, stages)
    ensures Acts(r, ws[from], ws[to])
  {
    var stage := stages[|stages| - 1];
    WovenUnderway(cfg, ws, es, r, from, stages, |stages| - 1);
    if r.Review? {
      ReviewedActs(r, ws[from], ws[to], stage.k);
    } else {
      BrokenActs(r, ws[from], ws[to]);
    }
  }

  /** What a tick did before the process died is undone; what the executor inserted stays. */
  lemma CutOffActs(cfg: RiskCfg, ws: seq<World>, es: seq<Event>, r: Act, from: nat, to: nat, stages: seq<Stage>)
    requires Run(cfg, ws, es) && CutOff(ws, es, r, from, to, stages)
    ensures Acts(Undo, ws[from], ws[to])
  {
    WovenUnderway(cfg, ws, es, r, from, stages, |stages| - 1);
    assert StepAt(cfg, ws, es, to - 1);
    GainsUnmoved(ws[from].db, ws[to].db);
  }

  lemma GainsUnmoved(a: Db, b: Db)
    requires Gains(a, b)
    ensures Unmoved(a, b)
  {
    forall t | 0 <= t < |a.trades| ensures KeepsTrade(a, b, t) {
      GainsKeeps(a, b, t);
    }
  }

  // ---- a whole run ---------------------------------------------------------------------------------

  /** Segment `k` is one event that touches no stop, one tick woven with the executor's events, or such a tick
      cut off by the death of the process. */
  ghost predicate Segment(ws: seq<World>, es: seq<Event>, cuts: seq<nat>, acts: seq<Act>, k: nat)
    requires |ws| == |es| + 1 && |cuts| == |acts| + 1 && k < |acts|
  {
    var act, from, to := acts[k], cuts[k], cuts[k + 1];
    && from < to <= |es|
    && if act.Review? || act.Break? then exists stages :: Woven(ws, es, act, from, to, stages)
       else AsOneEvent(ws, es, act, from, to) || (act.Undo? && IsCutOff(ws, es, from, to))
  }

  ghost predicate AsOneEvent(ws: seq<World>, es: seq<Event>, act: Act, from: nat, to: nat)
    requires |ws| == |es| + 1 && from < |es|
  {
    && to == from + 1 && act == ActOf(es[from]) && !es[from].Pass?
    && (es[from].Edit? ==> Unmoved(ws[from].ses, ws[to].ses))
  }

  ghost predicate IsCutOff(ws: seq<World>, es: seq<Event>, from: nat, to: nat)
    requires |ws| == |es| + 1
  {
    exists r: Act, stages: seq<Stage> :: CutOff(ws, es, r, from, to, stages)
  }

  /** Every run of ticks, whole, broken off by an exception or cut off by a crash, and of commits, rollbacks and
      other events, with the executor at work throughout, is cut into acts. */
  lemma SegmentsChart(cfg: RiskCfg, ws: seq<World>, es: seq<Event>, cuts: seq<nat>, acts: seq<Act>)
    requires Run(cfg, ws, es) && |cuts| == |acts| + 1 && cuts[0] < |ws|
    requires forall k :: 0 <= k < |acts| ==> Segment(ws, es, cuts, acts, k)
    ensures Chart(ws, cuts, acts)
  {
    forall k | 0 <= k < |cuts| ensures cuts[k] < |ws| {
      if k > 0 {
        assert Segment(ws, es, cuts, acts, k - 1);
      }
    }
    forall k: nat | k < |acts| ensures ActAt(ws, cuts, acts, k) {
      SegmentActs(cfg, ws, es, cuts, acts, k);
    }
  }

  lemma EventSegment(cfg: RiskCfg, ws: seq<World>, es: seq<Event>, act: Act, from: nat, to: nat)
    requires Run(cfg, ws, es) && from < |es| && AsOneEvent(ws, es, act, from, to)
    ensures Acts(act, ws[from], ws[to])
  {
    RunKeeps(cfg, ws, es, from);
    assert StepAt(cfg, ws, es, from);
    EventActs(cfg, ws[from], ws[to], es[from]);
  }

  lemma SegmentActs(cfg: RiskCfg, ws: seq<World>, es: seq<Event>, cuts: seq<nat>, acts: seq<Act>, k: nat)
    requires Run(cfg, ws, es) && |cuts| == |acts| + 1 && k < |acts| && Segment(ws, es, cuts, acts, k)
    ensures Acts(acts[k], ws[cuts[k]], ws[cuts[k + 1]])
  {
    var act, from, to := acts[k], cuts[k], cuts[k + 1];
    if act.Review? || act.Break? {
      var stages :| Woven(ws, es, act, from, to, stages);
      WovenActs(cfg, ws, es, act, from, to, stages);
    } else if AsOneEvent(ws, es, act, from, to) {
      EventSegment(cfg, ws, es, act, from, to);
    } else {
      var r: Act, stages: seq<Stage> :| CutOff(ws, es, r, from, to, stages);
      CutOffActs(cfg, ws, es, r, from, to, stages);
    }
  }
}
