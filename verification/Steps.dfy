/** Every event keeps the invariant, so it holds in every world of every run. */
module Steps {
  import opened Wrappers
  import opened Prices
  import opened StopRules
  import opened Rows
  import opened Reconcile
  import opened Links
  import opened Book
  import opened Invariants

  // ---- the executor ----------------------------------------------------------------------------

  lemma CheckKeeps(cfg: RiskCfg, w: World, e: Event)
    requires Inv(cfg, w) && e.Check? && Enabled(cfg, w, e)
    ensures Inv(cfg, Apply(cfg, w, e))
  {}

  lemma AppendShaped(d: Db, trade: Trade, tranches: seq<Tranche>, legs: seq<Leg>)
    requires WellFormed(d) && !trade.status.Done? && GoodBatch(|d.trades|, |d.legs|, tranches, legs)
    ensures WellFormed(Append(d, trade, tranches, legs))
  {}

  lemma AppendRisk(cfg: RiskCfg, trades: seq<Trade>, draft: Trade)
    requires RiskBounded(cfg, trades, Some(draft))
    ensures RiskBounded(cfg, trades + [draft], None)
  {
    forall account: nat, symbol: Option<string>
      ensures OpenRisk(trades + [draft], account, symbol)
           == OpenRisk(trades, account, symbol) + if Counts(draft, account, symbol) then draft.risk else 0.0
    {
      assert (trades + [draft])[..|trades|] == trades;
    }
    assert cfg.enabled && cfg.capSymbol > 0.0 ==>
        forall account: nat, symbol: string :: OpenRisk(trades + [draft], account, Some(symbol)) <= cfg.capSymbol;
    assert cfg.enabled && cfg.capAccount > 0.0 ==>
        forall account: nat :: OpenRisk(trades + [draft], account, None) <= cfg.capAccount;
  }

  lemma AppendEvolves(a: Db, b: Db, trade: Trade, tranches: seq<Tranche>, legs: seq<Leg>)
    requires SameSize(a, b) && Evolves(a, b) && Shaped(a)
    ensures Evolves(Append(a, trade, tranches, legs), Append(b, trade, tranches, legs))
  {}

  /** New legs were never sent: ids are fresh. */
  lemma AppendKeepsSent(d: Db, e: Db, trade: Trade, tranches: seq<Tranche>, legs: seq<Leg>,
                        attempts: multiset<nat>, acked: set<nat>)
    requires SentOnce(d, attempts, acked) && OneOrphanEach(d, acked)
    requires GoodBatch(|d.trades|, |d.legs|, tranches, legs) && e == Append(d, trade, tranches, legs)
    ensures SentOnce(e, attempts, acked) && OneOrphanEach(e, acked)
  {}

  lemma AppendKeepsDriveOk(w: World, v: World, tranches: seq<Tranche>, legs: seq<Leg>)
    requires Synced(w.db, w.ses) && DriveOk(w.db, w.ses, w.drive, w.attempts) && w.draft.Some?
    requires v.db == Append(w.db, w.draft.value, tranches, legs)
    requires v.ses == Append(w.ses, w.draft.value, tranches, legs)
    ensures DriveOk(v.db, v.ses, w.drive, w.attempts)
  {}

  lemma AppendKeepsDriveOrphans(w: World, v: World, tranches: seq<Tranche>, legs: seq<Leg>)
    requires DriveOk(w.db, w.ses, w.drive, w.attempts) && OwnsAll(w.ses) && w.draft.Some?
    requires DriveOrphans(w.db, w.ses, w.drive, w.acked) && forall i :: i in w.acked ==> i < |w.db.legs|
    requires v.db == Append(w.db, w.draft.value, tranches, legs)
    requires v.ses == Append(w.ses, w.draft.value, tranches, legs)
    ensures DriveOrphans(v.db, v.ses, w.drive, w.acked)
  {}

  ghost predicate OwnsAll(d: Db) { forall r :: 0 <= r < |d.tranches| ==> OwnsLegs(d, d.tranches[r]) }

  lemma HandOverKeeps(cfg: RiskCfg, w: World, e: Event)
    requires Inv(cfg, w) && e.HandOver? && Enabled(cfg, w, e)
    ensures Inv(cfg, Apply(cfg, w, e))
  {
    var v, draft := Apply(cfg, w, e), w.draft.value;
    AppendShaped(w.db, draft, e.tranches, e.legs);
    AppendShaped(w.ses, draft, e.tranches, e.legs);
    AppendEvolves(w.db, w.ses, draft, e.tranches, e.legs);
    AppendRisk(cfg, w.db.trades, draft);
    AppendKeepsSent(w.db, v.db, draft, e.tranches, e.legs, w.attempts, w.acked);
    AppendKeepsDriveOk(w, v, e.tranches, e.legs);
    AppendKeepsDriveOrphans(w, v, e.tranches, e.legs);
  }

  // ---- the ladder driver -----------------------------------------------------------------------

  lemma {:induction false} StagedOfDistinct(d: Db, ids: seq<nat>)
    requires Distinct(ids)
    ensures Distinct(StagedOf(d, ids))
  {
    if ids != [] {
      var tail := ids[1..];
      assert forall k :: 0 <= k < |tail| ==> tail[k] == ids[k + 1];
      StagedOfDistinct(d, tail);
      var rest := StagedOf(d, tail);
      assert ids[0] !in rest by {
        assert forall k :: 0 <= k < |rest| ==> rest[k] in tail;
      }
      PrependDistinct(ids[0], rest);
    }
  }

  lemma PrependDistinct(x: nat, s: seq<nat>)
    requires x !in s && Distinct(s)
    ensures Distinct([x] + s)
  {}

  lemma IntentKeeps(cfg: RiskCfg, w: World, e: Event)
    requires Inv(cfg, w) && e.Intent? && Enabled(cfg, w, e)
    ensures Inv(cfg, Apply(cfg, w, e))
  {
    var ses := SetTranche(w.ses, e.r, Deploying, e.now);
    TrancheSetIsLocal(w.ses, e.r, Deploying, e.now);
    LocalKeeps(cfg, w, ses);
    var u := w.(ses := ses);
    if e.end.Failed? {
      RollbackKeeps(cfg, u, Idle);
    } else {
      DurableKeeps(cfg, u, Idle);
      if e.end.Applied? {
        IntentStarts(w, e.r, e.now);
      }
    }
  }

  /** Once the intent is durable, everything left to place was never sent. */
  lemma IntentStarts(w: World, r: nat, now: int)
    requires Synced(w.db, w.ses) && SentOnce(w.db, w.attempts, w.acked)
    requires r < |w.ses.tranches| && w.ses.tranches[r].state.Waiting?
    ensures var ses, drive := SetTranche(w.ses, r, Deploying, now), Ready(r, StagedOf(w.ses, w.ses.tranches[r].legs));
            DriveOk(ses, ses, drive, w.attempts) && DriveOrphans(ses, ses, drive, w.acked)
  {
    var tr := w.ses.tranches[r];
    assert TrancheEvolves(w.db.tranches[r], tr);
    assert OwnsLegs(w.ses, tr);
    assert w.ses.trades[tr.trade].status.Done? ==> Quiet(w.ses, tr.trade);
    StagedOfDistinct(w.ses, tr.legs);
    forall i | i in tr.legs ensures w.attempts[i] == 0 {
      var k :| 0 <= k < |tr.legs| && tr.legs[k] == i;
      assert w.db.tranches[r].legs[k] == i;
    }
  }

  lemma PlacedEvolves(side: Side, leg: Leg, reply: Reply, now: int)
    requires leg.status.Staged? && LegOk(leg)
    ensures LegOk(PlacedLeg(leg, reply, now)) && LegEvolves(side, leg, PlacedLeg(leg, reply, now))
    ensures reply.Accepted? ==> HasRef(PlacedLeg(leg, reply, now))
  {}

  lemma PlaceIsLocal(d: Db, i: nat, leg: Leg)
    requires WellFormed(d) && i < |d.legs| && Managed(d, d.legs[i].trade)
    requires LegOk(leg) && LegEvolves(d.trades[d.legs[i].trade].side, d.legs[i], leg)
    ensures Local(d, SetLeg(d, i, leg))
  {}

  /** Only one tranche owns a leg. */
  lemma OwnedOnce(d: Db, r: nat, q: nat, i: nat)
    requires Shaped(d) && r < |d.tranches| && q < |d.tranches| && i in d.tranches[r].legs && i in d.tranches[q].legs
    ensures r == q
  {}

  lemma SendKeepsSent(db: Db, attempts: multiset<nat>, acked: set<nat>, r: nat, i: nat, now: set<nat>)
    requires Shaped(db) && SentOnce(db, attempts, acked) && r < |db.tranches| && i in db.tranches[r].legs
    requires !db.tranches[r].state.Waiting? && attempts[i] == 0 && (now == acked || now == acked + {i})
    ensures SentOnce(db, attempts + multiset{i}, now)
  {}

  lemma SendKeepsOrphans(db: Db, acked: set<nat>, r: nat, i: nat)
    requires Shaped(db) && OneOrphanEach(db, acked) && r < |db.tranches| && i in db.tranches[r].legs
    requires forall j :: j in db.tranches[r].legs ==> !Orphan(db, acked, j)
    ensures OneOrphanEach(db, acked + {i})
    ensures forall j :: j in db.tranches[r].legs && Orphan(db, acked + {i}, j) ==> j == i
  {
    var more := acked + {i};
    forall j: nat | Orphan(db, more, j) ensures j == i || Orphan(db, acked, j) {}
    forall q, j, k | 0 <= q < |db.tranches| && 0 <= j < |db.tranches[q].legs| && 0 <= k < |db.tranches[q].legs|
        && Orphan(db, more, db.tranches[q].legs[j]) && Orphan(db, more, db.tranches[q].legs[k])
      ensures j == k
    {
      if i in db.tranches[q].legs {
        OwnedOnce(db, r, q, i);
        assert db.tranches[q].legs[j] == i == db.tranches[q].legs[k];
      }
    }
  }

  lemma PlaceKeeps(cfg: RiskCfg, w: World, e: Event)
    requires Inv(cfg, w) && e.Place? && Enabled(cfg, w, e)
    ensures Inv(cfg, Apply(cfg, w, e))
  {
    var v, i, r := Apply(cfg, w, e), w.drive.todo[0], w.drive.r;
    var leg := w.ses.legs[i];
    assert OwnsLegs(w.ses, w.ses.tranches[r]);
    assert TrancheEvolves(w.db.tranches[r], w.ses.tranches[r]);
    PlacedEvolves(w.ses.trades[leg.trade].side, leg, e.reply, e.now);
    PlaceIsLocal(w.ses, i, PlacedLeg(leg, e.reply, e.now));
    EvolvesTransitive(w.db, w.ses, v.ses);
    EvolvesShape(w.ses, v.ses);
    SendKeepsSent(w.db, w.attempts, w.acked, r, i, v.acked);
    if e.reply.Accepted? {
      SendKeepsOrphans(w.db, w.acked, r, i);
    }
    PlaceKeepsDrive(w.ses, w.attempts, w.ses.tranches[r], w.drive.todo, PlacedLeg(leg, e.reply, e.now));
  }

  lemma PlaceKeepsDrive(ses: Db, attempts: multiset<nat>, tr: Tranche, todo: seq<nat>, leg: Leg)
    requires todo != [] && todo[0] < |ses.legs| && Unsent(ses, attempts, tr, todo)
    ensures Unsent(SetLeg(ses, todo[0], leg), attempts + multiset{todo[0]}, tr, todo[1..]) && todo[0] !in todo[1..]
  {}

  lemma FinishKeeps(cfg: RiskCfg, w: World, e: Event)
    requires Inv(cfg, w) && e.Finish? && Enabled(cfg, w, e)
    ensures Inv(cfg, Apply(cfg, w, e))
  {
    TrancheSetIsLocal(w.ses, w.drive.r, e.state, e.now);
    LocalKeeps(cfg, w.(drive := Idle), SetTranche(w.ses, w.drive.r, e.state, e.now));
  }

  // ---- every step, every run -------------------------------------------------------------------

  lemma CommitKeeps(cfg: RiskCfg, w: World, e: Event)
    requires Inv(cfg, w) && e.CommitAll? && Enabled(cfg, w, e)
    ensures Inv(cfg, Apply(cfg, w, e))
  {
    var drive := Apply(cfg, w, e).drive;
    if e.end.Failed? {
      RollbackKeeps(cfg, w, drive);
    } else {
      DurableKeeps(cfg, w, drive);
    }
  }

  lemma MonitorKeeps(cfg: RiskCfg, w: World, e: Event)
    requires Inv(cfg, w) && (e.Pass? || e.Edit? || e.RollUp? || e.CloseIdle?) && Enabled(cfg, w, e)
    ensures Inv(cfg, Apply(cfg, w, e))
  {
    match e {
      case Pass(t, snap, ids, cut) => PassIsLocal(w.ses, t, snap, ids, cut);
      case Edit(t, edited) => EditIsLocal(w.ses, t, edited);
      case RollUp(t) => TradeEditIsLocal(w.ses, t, RolledUp(w.ses, t).trades[t]);
      case CloseIdle(t) => TradeEditIsLocal(w.ses, t, w.ses.trades[t].(status := Done));
    }
    LocalKeeps(cfg, w, Apply(cfg, w, e).ses);
  }

  lemma StepKeeps(cfg: RiskCfg, w: World, v: World, e: Event)
    requires Inv(cfg, w) && Step(cfg, w, v, e)
    ensures Inv(cfg, v)
  {
    match e
    case Check(_, _) => CheckKeeps(cfg, w, e);
    case HandOver(_, _) => HandOverKeeps(cfg, w, e);
    case Intent(_, _, _) => IntentKeeps(cfg, w, e);
    case Place(_, _) => PlaceKeeps(cfg, w, e);
    case Finish(_, _) => FinishKeeps(cfg, w, e);
    case CommitAll(_) => CommitKeeps(cfg, w, e);
    case Crash => RollbackKeeps(cfg, w, Idle);
    case DropDraft =>
    case Abort =>
    case _ => MonitorKeeps(cfg, w, e);
  }

  lemma {:induction false} RunKeeps(cfg: RiskCfg, ws: seq<World>, es: seq<Event>, k: nat)
    requires Run(cfg, ws, es) && k < |ws|
    ensures Inv(cfg, ws[k])
  {
    if k > 0 {
      RunKeeps(cfg, ws, es, k - 1);
      assert StepAt(cfg, ws, es, k - 1);
      StepKeeps(cfg, ws[k - 1], ws[k], es[k - 1]);
    }
  }
}
