/** When a trade can still close: the run that shows it need not, and the exact condition. */
module Closing {
  import opened Wrappers
  import opened Prices
  import opened StopRules
  import opened Rows
  import opened Reconcile
  import opened Links
  import opened Book
  import opened Invariants
  import opened Steps
  import opened Ladder
  import opened Safety

  /** No leg of the trade was accepted at market without a fill. */
  predicate NonePending(d: Db, t: nat) {
    forall i :: 0 <= i < |d.legs| && d.legs[i].trade == t ==> !d.legs[i].status.Pending?
  }

  // ---- everything of a trade can be brought to an end ----------------------------------------------

  /** The trade's legs among the first `n`. */
  function LegIds(d: Db, t: nat, n: nat): (ids: seq<nat>)
    requires n <= |d.legs|
    ensures forall i :: i in ids <==> 0 <= i < n && d.legs[i].trade == t
  {
    if n == 0 then []
    else if d.legs[n - 1].trade == t then LegIds(d, t, n - 1) + [n - 1] else LegIds(d, t, n - 1)
  }

  /** The broker has nothing left: no position, no order, no history. */
  const NOTHING := Snapshot([], {}, [], map[], 0.0, None, 1.0, 0, 0, None)

  /** Seen so, a working leg is given up and an open one closed. */
  lemma VisitEnds(c: Ctx, s: Scan, i: nat)
    requires c.snap == NOTHING && i < |s.legs| && LegOk(s.legs[i]) && !s.legs[i].status.Pending?
    ensures !Active(VisitLeg(c, s, i).legs[i].status)
  {}

  lemma VisitEndsOthers(c: Ctx, s: Scan, i: nat, j: nat)
    requires i < |s.legs| && j < |s.legs| && !Active(s.legs[j].status)
    ensures !Active(VisitLeg(c, s, i).legs[j].status)
  {}

  lemma {:induction false} PassEnds(c: Ctx, s: Scan, ids: seq<nat>, j: nat)
    requires c.snap == NOTHING && InRange(ids, |s.legs|) && j < |s.legs| && LegsOk(s.legs)
    requires j in ids && !s.legs[j].status.Pending?
    ensures !Active(Visits(c, s, ids).legs[j].status)
  {
    var init, i := ids[..|ids| - 1], ids[|ids| - 1];
    var mid := Visits(c, s, init);
    PassEvolves(c, s, init, j);
    assert ids == init + [i];
    if j in init {
      PassEnds(c, s, init, j);
      VisitEndsOthers(c, mid, i, j);
    } else {
      VisitEnds(c, mid, j);
    }
  }

  /** After such a pass nothing of the trade is live. */
  lemma PassLeavesNone(d: Db, e: Db, t: nat)
    requires WellFormed(d) && Managed(d, t) && NonePending(d, t)
    requires LegsOfTrade(d, t, LegIds(d, t, |d.legs|))
    requires e == Reconciled(d, t, NOTHING, LegIds(d, t, |d.legs|), false)
    ensures forall i :: 0 <= i < |e.legs| && e.legs[i].trade == t ==> !Active(e.legs[i].status)
  {
    var ids, c, s := LegIds(d, t, |d.legs|), CtxFor(d, t, NOTHING), ScanOf(d);
    forall i | 0 <= i < |e.legs| && e.legs[i].trade == t ensures !Active(e.legs[i].status) {
      PassEvolves(c, s, ids, i);
      assert i in ids;
      PassEnds(c, s, ids, i);
    }
  }

  /** Withdrawing the trade's waiting rows is an edit, and leaves it quiet. */
  lemma WithdrawQuiets(d: Db, e: Db, t: nat, now: int)
    requires WellFormed(d) && Managed(d, t) && e == WithdrawAllBut(d, t, |d.tranches|, now)
    requires forall i :: 0 <= i < |d.legs| && d.legs[i].trade == t ==> !Active(d.legs[i].status)
    ensures EditOk(d, e, t) && Quiet(e, t) && Managed(e, t)
  {
    forall i | 0 <= i < |d.legs| && e.legs[i] != d.legs[i]
      ensures d.legs[i].trade == t && LegEdit(d.legs[i], e.legs[i])
    {
      var q :| 0 <= q < |d.tranches| && q != |d.tranches| && WaitsIn(d, q, t) && i in d.tranches[q].legs;
      assert OwnsLegs(d, d.tranches[q]);
    }
  }

  // ---- the run that does it ------------------------------------------------------------------------

  /** The run `us`, `fs` goes on from `ws`, `es`. */
  ghost predicate Continues(cfg: RiskCfg, ws: seq<World>, es: seq<Event>, us: seq<World>, fs: seq<Event>) {
    Run(cfg, us, fs) && ws <= us && es <= fs
  }

  lemma Go(cfg: RiskCfg, ws: seq<World>, es: seq<Event>, us: seq<World>, fs: seq<Event>, e: Event)
    returns (us': seq<World>, fs': seq<Event>)
    requires Continues(cfg, ws, es, us, fs) && Enabled(cfg, us[|fs|], e)
    ensures Continues(cfg, ws, es, us', fs') && us'[|fs'|] == Apply(cfg, us[|fs|], e)
  {
    RunGrows(cfg, us, fs, Apply(cfg, us[|fs|], e), e);
    us', fs' := us + [Apply(cfg, us[|fs|], e)], fs + [e];
  }

  /** A restart, and a pass that finds nothing at the broker. */
  lemma GoPass(cfg: RiskCfg, ws: seq<World>, es: seq<Event>, t: nat) returns (us: seq<World>, fs: seq<Event>)
    requires Run(cfg, ws, es) && Managed(ws[|es|].db, t) && NonePending(ws[|es|].db, t)
    ensures Continues(cfg, ws, es, us, fs)
    ensures var w := us[|fs|];
            && w.drive.Idle? && Managed(w.ses, t)
            && forall i :: 0 <= i < |w.ses.legs| && w.ses.legs[i].trade == t ==> !Active(w.ses.legs[i].status)
  {
    var d := ws[|es|].db;
    var ids := LegIds(d, t, |d.legs|);
    assert forall k :: 0 <= k < |ids| ==> ids[k] in ids;
    RunKeeps(cfg, ws, es, |es|);
    us, fs := Go(cfg, ws, es, ws, es, Crash);
    PassLeavesNone(d, Reconciled(d, t, NOTHING, ids, false), t);
    us, fs := Go(cfg, ws, es, us, fs, Pass(t, NOTHING, ids, false));
  }

  /** From there on: withdraw what waits, roll up, commit. */
  lemma GoClose(cfg: RiskCfg, ws: seq<World>, es: seq<Event>, t: nat) returns (us: seq<World>, fs: seq<Event>)
    requires Run(cfg, ws, es) && Managed(ws[|es|].db, t) && NonePending(ws[|es|].db, t)
    ensures Continues(cfg, ws, es, us, fs) && ClosedIn(us[|fs|].db, t)
  {
    us, fs := GoPass(cfg, ws, es, t);
    RunKeeps(cfg, us, fs, |fs|);
    var d := us[|fs|].ses;
    var e := WithdrawAllBut(d, t, |d.tranches|, 0);
    WithdrawQuiets(d, e, t, 0);
    us, fs := Go(cfg, ws, es, us, fs, Edit(t, e));
    us, fs := Go(cfg, ws, es, us, fs, RollUp(t));
    us, fs := Go(cfg, ws, es, us, fs, CommitAll(Applied));
  }

  predicate ClosedIn(d: Db, t: nat) { t < |d.trades| && d.trades[t].status.Done? }

  ghost predicate ClosesIn(cfg: RiskCfg, ws: seq<World>, es: seq<Event>, us: seq<World>, fs: seq<Event>, t: nat) {
    Continues(cfg, ws, es, us, fs) && ClosedIn(us[|fs|].db, t)
  }

  /** Some continuation of the run durably closes the trade. */
  ghost predicate CanClose(cfg: RiskCfg, ws: seq<World>, es: seq<Event>, t: nat) {
    exists us: seq<World>, fs: seq<Event> :: ClosesIn(cfg, ws, es, us, fs, t)
  }

  /** A trade can still be closed, by some continuation of the run, exactly when none of its legs is durably
      pending. So a market order accepted without a fill is the one thing that keeps a trade open for ever,
      whatever the broker shows, the operator configures or fails. */
  lemma CanCloseExactly(cfg: RiskCfg, ws: seq<World>, es: seq<Event>, t: nat)
    requires Run(cfg, ws, es) && t < |ws[|es|].db.trades|
    ensures CanClose(cfg, ws, es, t) <==> NonePending(ws[|es|].db, t)
  {
    var d := ws[|es|].db;
    if NonePending(d, t) {
      var us, fs := ws, es;
      if !d.trades[t].status.Done? {
        us, fs := GoClose(cfg, ws, es, t);
      }
      assert ClosesIn(cfg, ws, es, us, fs, t);
    } else {
      var i :| 0 <= i < |d.legs| && d.legs[i].trade == t && d.legs[i].status.Pending?;
      forall us: seq<World>, fs: seq<Event> | Continues(cfg, ws, es, us, fs) ensures !ClosesIn(cfg, ws, es, us, fs, t) {
        PendingStays(cfg, us, fs, |es|, |fs|, i);
      }
    }
  }

  lemma PendingStays(cfg: RiskCfg, ws: seq<World>, es: seq<Event>, j: nat, k: nat, i: nat)
    requires Run(cfg, ws, es) && j <= k < |ws| && i < |ws[j].db.legs| && ws[j].db.legs[i].status.Pending?
    ensures !ClosedIn(ws[k].db, ws[j].db.legs[i].trade)
  {
    RunKeeps(cfg, ws, es, j);
    DurableEvolves(cfg, ws, es, j, k);
    PendingBlocksClose(cfg, ws, es, j, k, i);
    var a := ws[j].db.legs[i];
    assert LegEvolves(ws[j].db.trades[a.trade].side, a, ws[k].db.legs[i]);
  }

  // ---- a run on which it cannot --------------------------------------------------------------------

  const AT_MARKET := HELD.(kind := Market)
  const UNFILLED := Accepted(7, false, None)

  function RungWorld(state: TrancheState, leg: Leg, drive: Drive, sent: multiset<nat>, acked: set<nat>): World {
    World(LadderDb(state, leg), LadderDb(state, leg), drive, None, sent, acked)
  }

  lemma RungOpens(cfg: RiskCfg)
    requires !cfg.halted && !cfg.enabled
    ensures var drafted := EMPTY.(draft := Some(LADDER));
            && Step(cfg, EMPTY, drafted, Check(LADDER, 0.0))
            && Step(cfg, drafted, RungWorld(Waiting, AT_MARKET, Idle, multiset{}, {}), HandOver([RUNG], [AT_MARKET]))
  {}

  lemma RungDeploys(cfg: RiskCfg)
    ensures var logged := RungWorld(Deploying, AT_MARKET, Ready(0, [0]), multiset{}, {});
            Step(cfg, RungWorld(Waiting, AT_MARKET, Idle, multiset{}, {}), logged, Intent(0, 0, Applied))
  {
    var d := LadderDb(Waiting, AT_MARKET);
    assert StagedOf(d, [0]) == [0] + StagedOf(d, []) == [0];
    assert SetTranche(d, 0, Deploying, 0) == LadderDb(Deploying, AT_MARKET);
  }

  lemma RungSends(cfg: RiskCfg)
    ensures var pending := PlacedLeg(AT_MARKET, UNFILLED, 0);
            var sent := RungWorld(Deploying, AT_MARKET, Sent(0, 0, []), multiset{0}, {0}).(
                          ses := LadderDb(Deploying, pending));
            && Step(cfg, RungWorld(Deploying, AT_MARKET, Ready(0, [0]), multiset{}, {}), sent, Place(UNFILLED, 0))
            && Step(cfg, sent, RungWorld(Deploying, pending, Ready(0, []), multiset{0}, {0}), CommitAll(Applied))
  {
    assert SetLeg(LadderDb(Deploying, AT_MARKET), 0, PlacedLeg(AT_MARKET, UNFILLED, 0))
        == LadderDb(Deploying, PlacedLeg(AT_MARKET, UNFILLED, 0));
    assert multiset{} + multiset{0} == multiset{0} && [0][1..] == [];
  }

  lemma PendingRun(cfg: RiskCfg) returns (ws: seq<World>, es: seq<Event>)
    requires !cfg.halted && !cfg.enabled
    ensures Run(cfg, ws, es)
    ensures ws[|es|] == RungWorld(Deploying, PlacedLeg(AT_MARKET, UNFILLED, 0), Ready(0, []), multiset{0}, {0})
  {
    var pending := PlacedLeg(AT_MARKET, UNFILLED, 0);
    var sent := RungWorld(Deploying, AT_MARKET, Sent(0, 0, []), multiset{0}, {0}).(ses := LadderDb(Deploying, pending));
    ws := [EMPTY, EMPTY.(draft := Some(LADDER)), RungWorld(Waiting, AT_MARKET, Idle, multiset{}, {}),
           RungWorld(Deploying, AT_MARKET, Ready(0, [0]), multiset{}, {}), sent,
           RungWorld(Deploying, pending, Ready(0, []), multiset{0}, {0})];
    es := [Check(LADDER, 0.0), HandOver([RUNG], [AT_MARKET]), Intent(0, 0, Applied), Place(UNFILLED, 0),
           CommitAll(Applied)];
    RungOpens(cfg);
    RungDeploys(cfg);
    RungSends(cfg);
    assert StepAt(cfg, ws, es, 0) && StepAt(cfg, ws, es, 1) && StepAt(cfg, ws, es, 2) && StepAt(cfg, ws, es, 3)
        && StepAt(cfg, ws, es, 4);
  }

  /** A rung placed at market, which the broker accepts and does not fill, ends durably pending; and from
      there its trade can never be closed. */
  lemma PendingHappens(cfg: RiskCfg) returns (ws: seq<World>, es: seq<Event>)
    requires !cfg.halted && !cfg.enabled
    ensures Run(cfg, ws, es) && |ws[|es|].db.legs| == 1 && ws[|es|].db.legs[0].status.Pending?
    ensures |ws[|es|].db.trades| == 1 && !CanClose(cfg, ws, es, 0)
  {
    ws, es := PendingRun(cfg);
    CanCloseExactly(cfg, ws, es, 0);
  }
}
