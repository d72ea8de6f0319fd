/**
 The executor's side of the order book: the risk check, the fanout and the insert of one trade on one
 account, as steps of the same transition system the monitor runs in.
 */
module ExecutorWorker {
  import opened Wrappers
  import opened Prices
  import opened Rows
  import opened Book
  import opened Invariants
  import opened Steps
  import opened Closing
  import opened Fanout
  import opened RiskLimits

  /** What one account's execution came to. A lost commit went through but was reported failed. */
  datatype Verdict = Blocked(why: Block) | Committed(rows: seq<Leg>, tranches: seq<Tranche>, end: Commit)

  lemma NonePendingBatch(side: Side, t: nat, base: nat, plan: seq<PlannedLeg>, broker: seq<Replies>, now: int, d: Db)
    requires |broker| == |plan| && |d.legs| == base + |plan|
    requires forall i :: 0 <= i < base ==> d.legs[i].trade < t
    requires forall i :: 0 <= i < |plan| ==> d.legs[base + i] == RowOf(side, t, plan[i], broker[i], now)
    ensures NonePending(d, t) <==> forall i :: 0 <= i < |plan| ==> !LeftUnfilled(side, plan[i], broker[i])
  {
    forall i | 0 <= i < |plan|
      ensures d.legs[base + i].trade == t
      ensures d.legs[base + i].status.Pending? <==> LeftUnfilled(side, plan[i], broker[i])
    {
      RowOfMeans(side, t, plan[i], broker[i], now);
      PendingWhenUnfilled(side, t, plan[i], broker[i], now);
    }
    forall j | base <= j < |d.legs|
      ensures d.legs[j].status.Pending? <==> LeftUnfilled(side, plan[j - base], broker[j - base])
    {
      assert d.legs[base + (j - base)].status.Pending? <==> LeftUnfilled(side, plan[j - base], broker[j - base]);
    }
    if i :| 0 <= i < |plan| && LeftUnfilled(side, plan[i], broker[i]) {
      assert d.legs[base + i].status.Pending?;
    }
  }

  class Executor {
    const cfg: RiskCfg
    var db: Db
    ghost var ses: Db
    ghost var drive: Drive
    ghost var draft: Option<Trade>
    ghost var attempts: multiset<nat>
    ghost var acked: set<nat>
    ghost var ws: seq<World>
    ghost var es: seq<Event>

    ghost function Now(): World
      reads this
    {
      World(db, ses, drive, draft, attempts, acked)
    }

    ghost predicate Valid()
      reads this
    {
      Run(cfg, ws, es) && ws[|es|] == Now()
    }

    constructor (cfg: RiskCfg)
      ensures Valid() && Now() == EMPTY
    {
      this.cfg := cfg;
      db, ses, drive, draft := EMPTY_DB, EMPTY_DB, Idle, None;
      attempts, acked := multiset{}, {};
      ws, es := [EMPTY], [];
    }

    ghost method Record(e: Event)
      requires |ws| == |es| + 1 && Run(cfg, ws, es) && Step(cfg, ws[|es|], Now(), e)
      modifies this`ws, this`es
      ensures Valid() && old(ws) <= ws && old(es) <= es
    {
      ghost var was, before := ws, es;
      ws, es := ws + [Now()], es + [e];
      assert forall k :: 0 <= k < |before| ==>
          (StepAt(cfg, was, before, k) && es[k] == before[k] && ws[k + 1] == was[k + 1]);
    }

    /** Check the limits against what is durable now; the trade may then be inserted. It may exactly when it is
        within every bound, and what blocks it is a bound it breaks. */
    method CheckLimits(trade: Trade, dayRealized: real) returns (why: Option<Block>)
      requires Valid() && draft.None? && trade.status.Live? && trade.realized == 0.0 && trade.risk >= 0.0
      modifies this`draft, this`ws, this`es
      ensures Valid() && old(ws) <= ws && old(es) <= es
      ensures why.None? <==> DraftWithin(cfg, db.trades, trade, dayRealized)
      ensures why.Some? ==> RiskLimits.Holds(why.value, cfg, trade.risk, dayRealized,
                                             Exposure(db.trades, trade.account, Some(trade.symbol)),
                                             Exposure(db.trades, trade.account, None))
      ensures draft == if why.None? then Some(trade) else None
    {
      why := RiskLimitReason(cfg, trade.risk, dayRealized, OpenRisk(db.trades, trade.account, Some(trade.symbol)),
                             OpenRisk(db.trades, trade.account, None));
      OpenRiskIsExposure(db.trades, trade.account, Some(trade.symbol));
      OpenRiskIsExposure(db.trades, trade.account, None);
      AllowedExactly(cfg, db.trades, trade, dayRealized);
      ReasonHolds(cfg, trade.risk, dayRealized, OpenRisk(db.trades, trade.account, Some(trade.symbol)),
                  OpenRisk(db.trades, trade.account, None));
      if why.None? {
        draft := Some(trade);
        Record(Check(trade, dayRealized));
      }
    }

    /** One transaction: the trade, its legs and its tranches, all or nothing. */
    method Insert(trade: Trade, tranches: seq<Tranche>, rows: seq<Leg>) returns (end: Commit)
      requires Valid() && draft == Some(trade) && GoodBatch(|db.trades|, |db.legs|, tranches, rows)
      modifies this`db, this`ses, this`draft, this`ws, this`es
      ensures Valid() && old(ws) <= ws && old(es) <= es && draft.None?
      ensures db == if end.Failed? then old(db) else Append(old(db), trade, tranches, rows)
    {
      end := *;
      draft := None;
      if end.Failed? {
        Record(DropDraft);
      } else {
        db := Append(db, trade, tranches, rows);
        ses := Append(ses, trade, tranches, rows);
        Record(HandOver(tranches, rows));
      }
    }

    lemma WellFormedRows()
      requires Valid()
      ensures forall i :: 0 <= i < |db.legs| ==> db.legs[i].trade < |db.trades|
    {
      RunKeeps(cfg, ws, es, |es|);
    }

    /** Execute one signal's plan on one account. Once it is committed the trade can be closed some day exactly
        when the broker left none of its market orders unfilled. */
    method ExecuteOnAccount(trade: Trade, plan: seq<PlannedLeg>, broker: seq<Replies>, cancels: Option<seq<CancelAt>>,
                            dayRealized: real, now: int)
      returns (v: Verdict)
      requires |broker| == |plan| && Valid() && draft.None?
      requires trade.status.Live? && trade.realized == 0.0 && trade.risk >= 0.0
      modifies this
      ensures Valid() && old(ws) <= ws && old(es) <= es && draft.None?
      ensures v.Blocked? <==> !DraftWithin(cfg, old(db).trades, trade, dayRealized)
      ensures v.Blocked? || v.end.Failed? ==> db == old(db)
      ensures v.Committed? && !v.end.Failed? ==> db == Append(old(db), trade, v.tranches, v.rows)
      ensures v.Committed? ==>
                |v.rows| == |plan|
                && (forall i :: 0 <= i < |plan| ==>
                      v.rows[i] == RowOf(trade.side, |old(db).trades|, plan[i], broker[i], now))
                && LotsBy(v.rows, Landed) + LotsBy(v.rows, Declined) + LotsBy(v.rows, Held) == PlannedLots(plan)
                && GoodBatch(|old(db).trades|, |old(db).legs|, v.tranches, v.rows)
      ensures v.Committed? && !v.end.Failed? ==>
                (CanClose(cfg, ws, es, |old(db).trades|) <==>
                   forall i :: 0 <= i < |plan| ==> !LeftUnfilled(trade.side, plan[i], broker[i]))
      ensures v.Committed? ==>
                if cancels.None? then v.tranches == []
                else exists groups: seq<Group> ::
                  && Grouped(groups, plan, |old(db).legs|, |plan|)
                  && LadderRows(groups, v.tranches, |old(db).trades|, plan, cancels.value, now)
    {
      var why := CheckLimits(trade, dayRealized);
      if why.Some? {
        return Blocked(why.value);
      }
      ghost var groups;
      var rows, tranches, tries, placed, placedLots;
      rows, tranches, tries, placed, placedLots, groups :=
        FanOutLegs(trade.side, |db.trades|, |db.legs|, plan, broker, cancels, now);
      ghost var base := |db.legs|;
      ghost var t := |db.trades|;
      WellFormedRows();
      var end := Insert(trade, tranches, rows);
      v := Committed(rows, tranches, end);
      if !end.Failed? {
        assert forall i :: 0 <= i < |plan| ==> db.legs[base + i] == rows[i];
        NonePendingBatch(trade.side, t, base, plan, broker, now, db);
        CanCloseExactly(cfg, ws, es, t);
      }
    }
  }
}
