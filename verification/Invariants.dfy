/** What every reachable world of the order book satisfies. */
module Invariants {
  import opened Wrappers
  import opened Prices
  import opened StopRules
  import opened Rows
  import opened Reconcile
  import opened Links
  import opened Book

  // ---- the parts -------------------------------------------------------------------------------

  ghost predicate WellFormed(d: Db) { Shaped(d) && LegsOk(d.legs) && DoneIsQuiet(d) }

  /** The session is the durable state with rows evolved, and both are well-formed. */
  ghost predicate Synced(db: Db, ses: Db) {
    SameSize(db, ses) && Evolves(db, ses) && WellFormed(db) && WellFormed(ses)
  }

  /** Each leg was sent at most once, and none of a tranche still durably waiting was sent at all. */
  ghost predicate SentOnce(db: Db, attempts: multiset<nat>, acked: set<nat>) {
    && (forall i :: attempts[i] <= 1)
    && (forall i :: i in attempts ==> i < |db.legs|)
    && (forall i :: i in acked ==> i in attempts)
    && (forall r, k :: 0 <= r < |db.tranches| && db.tranches[r].state.Waiting? && 0 <= k < |db.tranches[r].legs|
          ==> attempts[db.tranches[r].legs[k]] == 0)
  }

  predicate Distinct(s: seq<nat>) { forall j, k :: 0 <= j < k < |s| ==> s[j] != s[k] }

  /** What is left to place is this tranche's, distinct, staged and never sent. */
  ghost predicate Unsent(ses: Db, attempts: multiset<nat>, tr: Tranche, todo: seq<nat>) {
    && (forall k :: 0 <= k < |todo| ==>
          (&& todo[k] in tr.legs && todo[k] < |ses.legs|
           && ses.legs[todo[k]].status.Staged? && attempts[todo[k]] == 0))
    && Distinct(todo)
  }

  /** Mid-deploy: the intent is durable and the trade is live. */
  ghost predicate DriveOk(db: Db, ses: Db, drive: Drive, attempts: multiset<nat>) {
    !drive.Idle? ==>
      var r := drive.r;
      && r < |db.tranches| == |ses.tranches|
      && !db.tranches[r].state.Waiting?
      && Managed(ses, ses.tranches[r].trade)
      && Unsent(ses, attempts, ses.tranches[r], if drive.Ready? then drive.todo else drive.rest)
      && (drive.Sent? ==> drive.leg in ses.tranches[r].legs && drive.leg !in drive.rest)
  }

  /** Leg `i` has an order the broker accepted and no durable reference to it. */
  predicate Orphan(db: Db, acked: set<nat>, i: nat) {
    i in acked && i < |db.legs| && !HasRef(db.legs[i])
  }

  ghost predicate OneOrphanEach(db: Db, acked: set<nat>) {
    forall r, j, k ::
      (&& 0 <= r < |db.tranches| && 0 <= j < |db.tranches[r].legs| && 0 <= k < |db.tranches[r].legs|
       && Orphan(db, acked, db.tranches[r].legs[j]) && Orphan(db, acked, db.tranches[r].legs[k])) ==> j == k
  }

  /** The tranche being deployed has no orphan while all goes well, and only the leg just sent while
      its commit is outstanding. */
  ghost predicate DriveOrphans(db: Db, ses: Db, drive: Drive, acked: set<nat>) {
    && (drive.Ready? && drive.todo != [] && drive.r < |db.tranches| ==>
          forall i :: i in db.tranches[drive.r].legs ==> !Orphan(db, acked, i))
    && (drive.Sent? && drive.r < |db.tranches| ==>
          forall i :: i in db.tranches[drive.r].legs && Orphan(db, acked, i) ==> i == drive.leg)
    && (drive.Sent? && drive.leg in acked ==> drive.leg < |ses.legs| && HasRef(ses.legs[drive.leg]))
  }

  ghost predicate RiskNonNegative(trades: seq<Trade>) {
    forall t :: 0 <= t < |trades| ==> trades[t].risk >= 0.0
  }

  /** Open planned risk is within both caps, for every account and symbol. */
  ghost predicate WithinCaps(cfg: RiskCfg, trades: seq<Trade>) {
    && (cfg.capSymbol > 0.0 ==>
          forall account: nat, symbol: string :: OpenRisk(trades, account, Some(symbol)) <= cfg.capSymbol)
    && (cfg.capAccount > 0.0 ==> forall account: nat :: OpenRisk(trades, account, None) <= cfg.capAccount)
  }

  /** A trade that passed the check still fits beside everything durable. */
  predicate Fits(cfg: RiskCfg, trades: seq<Trade>, tr: Trade) {
    && (cfg.capSymbol > 0.0 ==> OpenRisk(trades, tr.account, Some(tr.symbol)) + tr.risk <= cfg.capSymbol)
    && (cfg.capAccount > 0.0 ==> OpenRisk(trades, tr.account, None) + tr.risk <= cfg.capAccount)
  }

  ghost predicate RiskBounded(cfg: RiskCfg, trades: seq<Trade>, draft: Option<Trade>) {
    && RiskNonNegative(trades)
    && (draft.Some? ==> draft.value.status.Live? && draft.value.risk >= 0.0 && draft.value.realized == 0.0)
    && (cfg.enabled ==> WithinCaps(cfg, trades) && (draft.Some? ==> Fits(cfg, trades, draft.value)))
  }

  ghost predicate Inv(cfg: RiskCfg, w: World) {
    && Synced(w.db, w.ses)
    && SentOnce(w.db, w.attempts, w.acked)
    && DriveOk(w.db, w.ses, w.drive, w.attempts)
    && OneOrphanEach(w.db, w.acked) && DriveOrphans(w.db, w.ses, w.drive, w.acked)
    && RiskBounded(cfg, w.db.trades, w.draft)
  }

  // ---- session edits ---------------------------------------------------------------------------

  /** A session edit outside a deploy: rows evolve and stay well-formed. */
  ghost predicate Local(ses: Db, e: Db) {
    SameSize(ses, e) && Evolves(ses, e) && LegsOk(e.legs) && DoneIsQuiet(e)
  }

  lemma LocalKeeps(cfg: RiskCfg, w: World, e: Db)
    requires Inv(cfg, w) && w.drive.Idle? && Local(w.ses, e)
    ensures Inv(cfg, w.(ses := e))
  {}

  lemma EditIsLocal(d: Db, t: nat, e: Db)
    requires WellFormed(d) && EditOk(d, e, t)
    ensures Local(d, e)
  {}

  lemma PassIsLocal(d: Db, t: nat, snap: Snapshot, ids: seq<nat>, cut: bool)
    requires WellFormed(d) && Managed(d, t) && LegsOfTrade(d, t, ids)
    ensures Local(d, Reconciled(d, t, snap, ids, cut))
  {
    var e := Reconciled(d, t, snap, ids, cut);
    var c, s := CtxFor(d, t, snap), ScanOf(d);
    forall i | 0 <= i < |d.legs|
      ensures LegOk(e.legs[i]) && LegEvolves(d.trades[d.legs[i].trade].side, d.legs[i], e.legs[i])
      ensures d.legs[i].trade != t ==> e.legs[i] == d.legs[i]
    {
      PassEvolves(c, s, ids, i);
      if i in ids {
        assert d.legs[i].trade == t;
      }
    }
    forall r | 0 <= r < |d.tranches| ensures TrancheEvolves(d.tranches[r], e.tranches[r]) {
      PassTranches(c, s, if cut && ids != [] then ids[..|ids| - 1] else ids, r);
    }
    forall u | 0 <= u < |e.trades| && e.trades[u].status.Done? ensures Quiet(e, u) {
      assert Quiet(d, u);
    }
  }

  lemma TradeEditIsLocal(d: Db, t: nat, tr: Trade)
    requires WellFormed(d) && t < |d.trades| && TradeEvolves(d.trades[t], tr)
    requires tr.status.Done? ==> Quiet(d, t)
    ensures Local(d, d.(trades := d.trades[t := tr]))
  {}

  lemma TrancheSetIsLocal(d: Db, r: nat, state: TrancheState, now: int)
    requires WellFormed(d) && r < |d.tranches| && !state.Waiting?
    ensures Local(d, SetTranche(d, r, state, now))
  {}

  // ---- commits and rollbacks -------------------------------------------------------------------

  lemma {:induction false} OpenRiskFalls(a: seq<Trade>, b: seq<Trade>, account: nat, symbol: Option<string>)
    requires |a| == |b| && RiskNonNegative(a) && forall t :: 0 <= t < |a| ==> TradeEvolves(a[t], b[t])
    ensures OpenRisk(b, account, symbol) <= OpenRisk(a, account, symbol)
  {
    if a != [] {
      var n := |a| - 1;
      forall t | 0 <= t < n ensures TradeEvolves(a[..n][t], b[..n][t]) {
        assert TradeEvolves(a[t], b[t]);
      }
      OpenRiskFalls(a[..n], b[..n], account, symbol);
      assert TradeEvolves(a[n], b[n]);
    }
  }

  /** The monitor's commits never raise open risk, so a checked draft keeps fitting. */
  lemma EvolvedRisk(cfg: RiskCfg, a: seq<Trade>, b: seq<Trade>, draft: Option<Trade>)
    requires |a| == |b| && (forall t :: 0 <= t < |a| ==> TradeEvolves(a[t], b[t])) && RiskBounded(cfg, a, draft)
    ensures RiskBounded(cfg, b, draft)
  {
    forall t | 0 <= t < |b| ensures b[t].risk >= 0.0 {
      assert TradeEvolves(a[t], b[t]);
    }
    forall account: nat, symbol: Option<string> ensures OpenRisk(b, account, symbol) <= OpenRisk(a, account, symbol) {
      OpenRiskFalls(a, b, account, symbol);
    }
  }

  lemma EvolvesReflexive(d: Db)
    ensures Evolves(d, d)
  {}

  lemma DurableKeepsSent(db: Db, ses: Db, attempts: multiset<nat>, acked: set<nat>)
    requires Synced(db, ses) && SentOnce(db, attempts, acked) && OneOrphanEach(db, acked)
    ensures SentOnce(ses, attempts, acked) && OneOrphanEach(ses, acked)
  {}

  /** A commit that went through leaves no orphan in the tranche being deployed. */
  lemma DurableKeepsDrive(db: Db, ses: Db, drive: Drive, attempts: multiset<nat>, acked: set<nat>, next: Drive)
    requires Synced(db, ses) && DriveOk(db, ses, drive, attempts) && DriveOrphans(db, ses, drive, acked)
    requires drive.Sent? && (next == Ready(drive.r, drive.rest) || next == Ready(drive.r, []))
    ensures DriveOk(ses, ses, next, attempts) && DriveOrphans(ses, ses, next, acked)
  {}

  lemma DurableKeeps(cfg: RiskCfg, w: World, drive: Drive)
    requires Inv(cfg, w)
    requires (w.drive.Idle? && drive.Idle?)
          || (w.drive.Sent? && (drive == Ready(w.drive.r, w.drive.rest) || drive == Ready(w.drive.r, [])))
    ensures Inv(cfg, w.(db := w.ses, drive := drive))
  {
    EvolvesReflexive(w.ses);
    EvolvedRisk(cfg, w.db.trades, w.ses.trades, w.draft);
    DurableKeepsSent(w.db, w.ses, w.attempts, w.acked);
    if w.drive.Sent? {
      DurableKeepsDrive(w.db, w.ses, w.drive, w.attempts, w.acked, drive);
    }
  }

  lemma RollbackKeeps(cfg: RiskCfg, w: World, drive: Drive)
    requires Inv(cfg, w) && (drive.Idle? || (w.drive.Sent? && drive == Ready(w.drive.r, [])))
    ensures Inv(cfg, w.(ses := w.db, drive := drive))
  {}
}
