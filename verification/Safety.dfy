/** What holds over every run of executor and monitor, whatever the broker, the commits and the crashes do. */
module Safety {
  import opened Wrappers
  import opened Prices
  import opened StopRules
  import opened Rows
  import opened Reconcile
  import opened Book
  import opened Invariants
  import opened Steps

  // ---- the write-ahead deploy ------------------------------------------------------------------

  /** The monitor calls place_order at most once for each leg, and never before its tranche's intent
      is durable. */
  lemma AtMostOnce(cfg: RiskCfg, ws: seq<World>, es: seq<Event>, k: nat, i: nat)
    requires Run(cfg, ws, es) && k < |ws|
    ensures ws[k].attempts[i] <= 1
    ensures forall r :: 0 <= r < |ws[k].db.tranches| && i in ws[k].db.tranches[r].legs && ws[k].attempts[i] > 0
              ==> !ws[k].db.tranches[r].state.Waiting?
  {
    RunKeeps(cfg, ws, es, k);
  }

  /** At most one accepted order of a tranche lacks a durable reference. */
  lemma OneOrphanPerTranche(cfg: RiskCfg, ws: seq<World>, es: seq<Event>, k: nat, r: nat, i: nat, j: nat)
    requires Run(cfg, ws, es) && k < |ws| && r < |ws[k].db.tranches|
    requires i in ws[k].db.tranches[r].legs && j in ws[k].db.tranches[r].legs
    requires Orphan(ws[k].db, ws[k].acked, i) && Orphan(ws[k].db, ws[k].acked, j)
    ensures i == j
  {
    RunKeeps(cfg, ws, es, k);
    var legs := ws[k].db.tranches[r].legs;
    var a :| 0 <= a < |legs| && legs[a] == i;
    var b :| 0 <= b < |legs| && legs[b] == j;
  }

  const LADDER := Trade(0, 0, "GOLD", Buy, 1.0, 0, true, Live, None, 0.0)
  const RUNG := Tranche(0, Rung(Mid), Some(100.0), [0], Waiting, 0)
  const HELD := Leg(0, 1, Limit, 100.0, 110.0, 1.0, 90.0, 90.0, false, Staged, None, None, None, 0, None)
  const LANDED := Accepted(7, false, None)

  /** The ladder's tables, with its one rung in `state` and its one leg as `leg`. */
  function LadderDb(state: TrancheState, leg: Leg): Db { Db([LADDER], [RUNG.(state := state)], [leg]) }

  function OrphanWorld(state: TrancheState, drive: Drive): World {
    World(LadderDb(state, HELD), LadderDb(state, HELD), drive, None, multiset{0}, {0})
  }

  /** A commit that fails after the broker accepted. */
  lemma OrphanRun(cfg: RiskCfg) returns (ws: seq<World>, es: seq<Event>)
    requires !cfg.halted && !cfg.enabled
    ensures Run(cfg, ws, es) && ws[|es|] == OrphanWorld(Deploying, Ready(0, []))
  {
    var waiting, going := LadderDb(Waiting, HELD), LadderDb(Deploying, HELD);
    var drafted := EMPTY.(draft := Some(LADDER));
    var held := World(waiting, waiting, Idle, None, multiset{}, {});
    var logged := World(going, going, Ready(0, [0]), None, multiset{}, {});
    var sent := World(going, LadderDb(Deploying, PlacedLeg(HELD, LANDED, 0)), Sent(0, 0, []), None, multiset{0}, {0});
    var lost := OrphanWorld(Deploying, Ready(0, []));
    ws := [EMPTY, drafted, held, logged, sent, lost];
    es := [Check(LADDER, 0.0), HandOver([RUNG], [HELD]), Intent(0, 0, Applied), Place(LANDED, 0), CommitAll(Failed)];
    OrphanOpens(cfg, drafted, held);
    OrphanSends(cfg, held, logged, sent, lost);
    assert StepAt(cfg, ws, es, 0) && StepAt(cfg, ws, es, 1) && StepAt(cfg, ws, es, 2) && StepAt(cfg, ws, es, 3)
        && StepAt(cfg, ws, es, 4);
  }

  lemma OrphanSettles(cfg: RiskCfg, settled: World)
    requires settled == OrphanWorld(Deploying, Idle).(ses := LadderDb(Deployed, HELD))
    ensures Step(cfg, OrphanWorld(Deploying, Ready(0, [])), settled, Finish(Deployed, 0))
    ensures Step(cfg, settled, OrphanWorld(Deployed, Idle), CommitAll(Applied))
  {
    assert SetTranche(LadderDb(Deploying, HELD), 0, Deployed, 0) == LadderDb(Deployed, HELD);
  }

  /** The bound is met, and an interrupted tranche need not stay `deploying`: the driver still settles the
      rung whose commit failed, which ends durably `deployed` with its accepted order unrecorded. */
  lemma OrphanHappens(cfg: RiskCfg) returns (ws: seq<World>, es: seq<Event>)
    requires !cfg.halted && !cfg.enabled
    ensures Run(cfg, ws, es) && Orphan(ws[|es|].db, ws[|es|].acked, 0)
    ensures ws[|es|].drive.Idle? && |ws[|es|].db.tranches| == 1 && ws[|es|].db.tranches[0].state == Deployed
  {
    ws, es := OrphanRun(cfg);
    var settled := OrphanWorld(Deploying, Idle).(ses := LadderDb(Deployed, HELD));
    OrphanSettles(cfg, settled);
    RunGrows(cfg, ws, es, settled, Finish(Deployed, 0));
    ws, es := ws + [settled], es + [Finish(Deployed, 0)];
    RunGrows(cfg, ws, es, OrphanWorld(Deployed, Idle), CommitAll(Applied));
    ws, es := ws + [OrphanWorld(Deployed, Idle)], es + [CommitAll(Applied)];
  }

  lemma OrphanOpens(cfg: RiskCfg, drafted: World, held: World)
    requires !cfg.halted && !cfg.enabled && drafted == EMPTY.(draft := Some(LADDER))
    requires held == World(LadderDb(Waiting, HELD), LadderDb(Waiting, HELD), Idle, None, multiset{}, {})
    ensures Step(cfg, EMPTY, drafted, Check(LADDER, 0.0)) && Step(cfg, drafted, held, HandOver([RUNG], [HELD]))
  {}

  lemma OrphanSends(cfg: RiskCfg, held: World, logged: World, sent: World, lost: World)
    requires var going, placed := LadderDb(Deploying, HELD), LadderDb(Deploying, PlacedLeg(HELD, LANDED, 0));
             && held == World(LadderDb(Waiting, HELD), LadderDb(Waiting, HELD), Idle, None, multiset{}, {})
             && logged == World(going, going, Ready(0, [0]), None, multiset{}, {})
             && sent == World(going, placed, Sent(0, 0, []), None, multiset{0}, {0})
             && lost == World(going, going, Ready(0, []), None, multiset{0}, {0})
    ensures Step(cfg, held, logged, Intent(0, 0, Applied)) && Step(cfg, logged, sent, Place(LANDED, 0))
    ensures Step(cfg, sent, lost, CommitAll(Failed))
  {
    assert StagedOf(held.ses, [0]) == [0] + StagedOf(held.ses, []) == [0];
    assert SetTranche(held.ses, 0, Deploying, 0) == logged.ses;
    assert SetLeg(logged.ses, 0, PlacedLeg(HELD, LANDED, 0)) == sent.ses;
  }

  // ---- risk ------------------------------------------------------------------------------------

  /** With the limits on, summed planned risk of open and partial trades never exceeds a cap. */
  lemma RiskCapsHold(cfg: RiskCfg, ws: seq<World>, es: seq<Event>, k: nat, account: nat, symbol: string)
    requires Run(cfg, ws, es) && k < |ws| && cfg.enabled
    ensures cfg.capSymbol > 0.0 ==> OpenRisk(ws[k].db.trades, account, Some(symbol)) <= cfg.capSymbol
    ensures cfg.capAccount > 0.0 ==> OpenRisk(ws[k].db.trades, account, None) <= cfg.capAccount
  {
    RunKeeps(cfg, ws, es, k);
  }

  // ---- the durable history ---------------------------------------------------------------------

  lemma StepEvolves(cfg: RiskCfg, w: World, v: World, e: Event)
    requires Inv(cfg, w) && Step(cfg, w, v, e)
    ensures Evolves(w.db, v.db)
  {
    EvolvesReflexive(w.db);
    if e.Intent? && !e.end.Failed? {
      TrancheSetIsLocal(w.ses, e.r, Deploying, e.now);
      EvolvesTransitive(w.db, w.ses, v.db);
    }
  }

  lemma NextEvolves(cfg: RiskCfg, ws: seq<World>, es: seq<Event>, k: nat)
    requires Run(cfg, ws, es) && k < |es|
    ensures Evolves(ws[k].db, ws[k + 1].db)
  {
    RunKeeps(cfg, ws, es, k);
    assert StepAt(cfg, ws, es, k);
    StepEvolves(cfg, ws[k], ws[k + 1], es[k]);
  }

  /** Over time durable rows only evolve, across any commits, rollbacks and crashes between. */
  lemma {:induction false} DurableEvolves(cfg: RiskCfg, ws: seq<World>, es: seq<Event>, j: nat, k: nat)
    requires Run(cfg, ws, es) && j <= k < |ws|
    ensures Evolves(ws[j].db, ws[k].db)
  {
    if j == k {
      EvolvesReflexive(ws[j].db);
    } else {
      DurableEvolves(cfg, ws, es, j, k - 1);
      NextEvolves(cfg, ws, es, k - 1);
      EvolvesTransitive(ws[j].db, ws[k - 1].db, ws[k].db);
    }
  }

  /** A durable leg: terminal rows are frozen (so a close, its money and its attribution are written
      once), links are permanent, nothing is re-staged, and the stop never loosens. */
  lemma LegLifecycle(cfg: RiskCfg, ws: seq<World>, es: seq<Event>, j: nat, k: nat, i: nat)
    requires Run(cfg, ws, es) && j <= k < |ws| && i < |ws[j].db.legs|
    ensures i < |ws[k].db.legs| && ws[j].db.legs[i].trade < |ws[j].db.trades|
    ensures var a, b := ws[j].db.legs[i], ws[k].db.legs[i];
            && (Terminal(a.status) ==> b == a)
            && (a.close.Some? ==> b.close == a.close)
            && (a.orderRef.Some? ==> b.orderRef == a.orderRef) && (a.posRef.Some? ==> b.posRef == a.posRef)
            && (b.status.Staged? ==> a.status.Staged?) && (b.status.Working? ==> a.status.Staged? || a.status.Working?)
            && !Tighter(ws[j].db.trades[a.trade].side, a.sl, b.sl)
  {
    RunKeeps(cfg, ws, es, j);
    DurableEvolves(cfg, ws, es, j, k);
    var a, b := ws[j].db.legs[i], ws[k].db.legs[i];
    assert LegOk(a) && LegEvolves(ws[j].db.trades[a.trade].side, a, b);
  }

  // ---- closed trades ---------------------------------------------------------------------------

  /** A closed trade has no pending, working or open leg and no waiting tranche, and stays closed. */
  lemma ClosedIsQuiet(cfg: RiskCfg, ws: seq<World>, es: seq<Event>, j: nat, k: nat, t: nat)
    requires Run(cfg, ws, es) && j <= k < |ws| && t < |ws[j].db.trades| && ws[j].db.trades[t].status.Done?
    ensures t < |ws[k].db.trades| && ws[k].db.trades[t].status.Done? && Quiet(ws[k].db, t)
  {
    RunKeeps(cfg, ws, es, k);
    DurableEvolves(cfg, ws, es, j, k);
    assert TradeEvolves(ws[j].db.trades[t], ws[k].db.trades[t]);
  }

  /** Resting orders whose trade is already closed, as the start-up sweep selects them. */
  function Orphaned(d: Db): set<nat> {
    set i | 0 <= i < |d.legs| && d.legs[i].status.Working? && d.legs[i].orderRef.Some?
            && d.legs[i].trade < |d.trades| && d.trades[d.legs[i].trade].status.Done?
  }

  /** After any crash the start-up sweep selects nothing: the tables never hold such a leg. */
  lemma SweepFindsNothing(cfg: RiskCfg, ws: seq<World>, es: seq<Event>, k: nat)
    requires Run(cfg, ws, es) && k < |ws|
    ensures Orphaned(ws[k].db) == {}
  {
    forall i | i in Orphaned(ws[k].db) ensures false {
      ClosedIsQuiet(cfg, ws, es, k, k, ws[k].db.legs[i].trade);
    }
  }

  // ---- no order once nothing waits -------------------------------------------------------------

  /** Nothing of trade `t` waits durably and no deploy of it is under way. */
  predicate Spent(w: World, t: nat) {
    && t < |w.db.trades| && NoneWaiting(w.db, t)
    && (!w.drive.Idle? && w.drive.r < |w.ses.tranches| ==> w.ses.tranches[w.drive.r].trade != t)
  }

  lemma SpentStep(cfg: RiskCfg, w: World, v: World, e: Event, t: nat)
    requires Inv(cfg, w) && Step(cfg, w, v, e) && Spent(w, t)
    ensures Spent(v, t)
    ensures forall i :: 0 <= i < |w.db.legs| && w.db.legs[i].trade == t ==> v.attempts[i] == w.attempts[i]
  {
    StepKeeps(cfg, w, v, e);
    StepEvolves(cfg, w, v, e);
    forall r | 0 <= r < |v.db.tranches| && v.db.tranches[r].trade == t ensures !v.db.tranches[r].state.Waiting? {
      if r < |w.db.tranches| {
        assert TrancheEvolves(w.db.tranches[r], v.db.tranches[r]);
      }
    }
    SpentStepDrive(cfg, w, v, e, t);
  }

  lemma SpentStepDrive(cfg: RiskCfg, w: World, v: World, e: Event, t: nat)
    requires Inv(cfg, w) && Step(cfg, w, v, e) && Spent(w, t)
    ensures !v.drive.Idle? && v.drive.r < |v.ses.tranches| ==> v.ses.tranches[v.drive.r].trade != t
    ensures forall i :: 0 <= i < |w.db.legs| && w.db.legs[i].trade == t ==> v.attempts[i] == w.attempts[i]
  {
    if e.Place? {
      var i, tr := w.drive.todo[0], w.ses.tranches[w.drive.r];
      assert OwnsLegs(w.ses, tr);
      if i < |w.db.legs| {
        assert LegEvolves(w.db.trades[w.db.legs[i].trade].side, w.db.legs[i], w.ses.legs[i]);
      }
    }
    if e.Intent? {
      assert TrancheEvolves(w.db.tranches[e.r], w.ses.tranches[e.r]);
    }
    if !w.drive.Idle? {
      assert TrancheEvolves(w.db.tranches[w.drive.r], w.ses.tranches[w.drive.r]);
    }
  }

  lemma SpentNext(cfg: RiskCfg, ws: seq<World>, es: seq<Event>, k: nat, t: nat, i: nat)
    requires Run(cfg, ws, es) && k < |es| && Spent(ws[k], t) && i < |ws[k].db.legs| && ws[k].db.legs[i].trade == t
    ensures Spent(ws[k + 1], t) && i < |ws[k + 1].db.legs| && ws[k + 1].db.legs[i].trade == t
    ensures ws[k + 1].attempts[i] == ws[k].attempts[i]
  {
    RunKeeps(cfg, ws, es, k);
    assert StepAt(cfg, ws, es, k);
    SpentStep(cfg, ws[k], ws[k + 1], es[k], t);
    NextEvolves(cfg, ws, es, k);
    assert LegEvolves(ws[k].db.trades[t].side, ws[k].db.legs[i], ws[k + 1].db.legs[i]);
  }

  /** Once nothing of a trade waits durably, no order is ever placed for it again. */
  lemma {:induction false} NoOrderAfterwards(cfg: RiskCfg, ws: seq<World>, es: seq<Event>, j: nat, k: nat, t: nat,
                                             i: nat)
    requires Run(cfg, ws, es) && j <= k < |ws| && Spent(ws[j], t) && i < |ws[j].db.legs| && ws[j].db.legs[i].trade == t
    ensures Spent(ws[k], t) && i < |ws[k].db.legs| && ws[k].db.legs[i].trade == t
    ensures ws[k].attempts[i] == ws[j].attempts[i]
  {
    if j < k {
      NoOrderAfterwards(cfg, ws, es, j, k - 1, t, i);
      SpentNext(cfg, ws, es, k - 1, t, i);
    }
  }

  /** In particular none once it is closed. */
  lemma ClosedIsSpent(cfg: RiskCfg, ws: seq<World>, es: seq<Event>, k: nat, t: nat)
    requires Run(cfg, ws, es) && k < |ws| && t < |ws[k].db.trades| && ws[k].db.trades[t].status.Done?
    ensures Spent(ws[k], t)
  {
    RunKeeps(cfg, ws, es, k);
    var w := ws[k];
    assert Quiet(w.db, t);
    if !w.drive.Idle? {
      var tr := w.ses.tranches[w.drive.r];
      assert OwnsLegs(w.ses, tr);
      assert TradeEvolves(w.db.trades[t], w.ses.trades[t]);
    }
  }

  // ---- what does not hold ----------------------------------------------------------------------

  /** A leg whose market order was accepted but not filled is never looked at again: it stays
      pending and its trade open, with its planned risk counted, for ever. */
  lemma PendingBlocksClose(cfg: RiskCfg, ws: seq<World>, es: seq<Event>, j: nat, k: nat, i: nat)
    requires Run(cfg, ws, es) && j <= k < |ws| && i < |ws[j].db.legs| && ws[j].db.legs[i].status.Pending?
    ensures i < |ws[k].db.legs| && ws[k].db.legs[i].status.Pending?
    ensures var t := ws[k].db.legs[i].trade; t < |ws[k].db.trades| && !ws[k].db.trades[t].status.Done?
  {
    RunKeeps(cfg, ws, es, j);
    RunKeeps(cfg, ws, es, k);
    DurableEvolves(cfg, ws, es, j, k);
    var a := ws[j].db.legs[i];
    assert LegEvolves(ws[j].db.trades[a.trade].side, a, ws[k].db.legs[i]);
  }
}
