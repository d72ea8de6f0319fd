/** The money in the book: every booked amount is one broker transaction, and none is booked twice. */
module Money {
  import opened Wrappers
  import opened Prices
  import opened Rows
  import opened Reconcile
  import opened Links
  import opened Book
  import opened Invariants
  import opened Steps
  import opened LinkRuns

  // ---- where each amount came from -------------------------------------------------------------

  predicate ExactlyClosed(l: Leg) { l.status.Closed? && l.close.Some? && l.close.value.basis == Some(Exact) }

  ghost predicate SettledIn(history: seq<Txn>, l: Leg) { exists h: nat :: SettledBy(history, h, l) }

  /** Every close is attributed, and an exact one to a row of the broker's history. */
  ghost predicate Traced(history: seq<Txn>, legs: seq<Leg>) {
    forall i :: 0 <= i < |legs| ==> TracedLeg(history, legs[i])
  }

  ghost predicate TracedLeg(history: seq<Txn>, l: Leg) {
    && (l.status.Closed? ==> l.close.Some? && l.close.value.basis.Some?)
    && (ExactlyClosed(l) ==> SettledIn(history, l))
  }

  ghost predicate Listed(history: seq<Txn>, txns: seq<Txn>) {
    forall k :: 0 <= k < |txns| ==> exists h :: 0 <= h < |history| && history[h] == txns[k]
  }

  lemma VisitTraced(c: Ctx, s: Scan, i: nat, history: seq<Txn>)
    requires i < |s.legs| && LegsOk(s.legs) && Traced(history, s.legs) && Listed(history, c.snap.txns)
    ensures Traced(history, VisitLeg(c, s, i).legs)
  {
    var l := VisitLeg(c, s, i).legs[i];
    if l != s.legs[i] && l.status.Closed? {
      CloseMoney(c, s, i);
      if ExactlyClosed(l) {
        var k: nat :| SettledBy(c.snap.txns, k, l);
        assert SettledBy(c.snap.txns, k, l);
        var h :| 0 <= h < |history| && history[h] == c.snap.txns[k];
        assert SettledBy(history, h, l);
      }
    }
  }

  lemma {:induction false} PassTraced(c: Ctx, s: Scan, ids: seq<nat>, history: seq<Txn>)
    requires InRange(ids, |s.legs|) && LegsOk(s.legs) && Traced(history, s.legs) && Listed(history, c.snap.txns)
    ensures Traced(history, Visits(c, s, ids).legs)
  {
    if ids != [] {
      var init := ids[..|ids| - 1];
      PassTraced(c, s, init, history);
      if s.legs != [] {
        PassEvolves(c, s, init, 0);
      }
      VisitTraced(c, Visits(c, s, init), ids[|ids| - 1], history);
    }
  }

  lemma StepTraced(cfg: RiskCfg, w: World, v: World, e: Event, history: seq<Txn>)
    requires Inv(cfg, w) && Step(cfg, w, v, e) && Traced(history, w.db.legs) && Traced(history, w.ses.legs)
    requires e.Pass? ==> Listed(history, e.snap.txns)
    ensures Traced(history, v.db.legs) && Traced(history, v.ses.legs)
  {
    match e
    case HandOver(_, legs) => assert forall i :: 0 <= i < |legs| ==> TracedLeg(history, legs[i]);
    case Pass(t, snap, ids, _) => PassTraced(CtxFor(w.ses, t, snap), ScanOf(w.ses), ids, history);
    case Edit(t, edited) => EditTraced(w.ses, edited, t, history);
    case Place(reply, now) =>
      var leg := w.ses.legs[w.drive.todo[0]];
      assert TracedLeg(history, PlacedLeg(leg, reply, now));
    case _ =>
  }

  lemma EditTraced(d: Db, e: Db, t: nat, history: seq<Txn>)
    requires EditOk(d, e, t) && Traced(history, d.legs)
    ensures Traced(history, e.legs)
  {}

  /** Every history row any pass of the run read is in `history`. */
  ghost predicate HistoryRun(es: seq<Event>, history: seq<Txn>) {
    forall k :: 0 <= k < |es| && es[k].Pass? ==> Listed(history, es[k].snap.txns)
  }

  lemma {:induction false} RunTraced(cfg: RiskCfg, ws: seq<World>, es: seq<Event>, k: nat, history: seq<Txn>)
    requires Run(cfg, ws, es) && k < |ws| && HistoryRun(es, history)
    ensures Traced(history, ws[k].db.legs) && Traced(history, ws[k].ses.legs)
  {
    if k > 0 {
      RunTraced(cfg, ws, es, k - 1, history);
      RunKeeps(cfg, ws, es, k - 1);
      assert StepAt(cfg, ws, es, k - 1);
      StepTraced(cfg, ws[k - 1], ws[k], es[k - 1], history);
    }
  }

  // ---- totals ----------------------------------------------------------------------------------

  /** The book: auditable money summed over the first `n` trades. */
  function BookTotal(legs: seq<Leg>, n: nat): real {
    if n == 0 then 0.0 else BookTotal(legs, n - 1) + AuditSum(legs, n - 1)
  }

  /** What the broker paid on the rows `m` gives to the legs: a stopped-out leg's amount as the loss it is. */
  function Paid(history: seq<Txn>, legs: seq<Leg>, m: map<nat, nat>): real {
    if legs == [] then 0.0
    else
      var i := |legs| - 1;
      Paid(history, legs[..i], m) + if i in m then Signed(history, legs[i], m[i]) else 0.0
  }

  function Signed(history: seq<Txn>, l: Leg, h: nat): real {
    if h < |history| && history[h].pl.Some? && l.close.Some? then
      var paid := history[h].pl.value;
      if l.close.value.outcome.SlHit? && paid > 0.0 then 0.0 - paid else paid
    else 0.0
  }

  /** The same rows with the signs the broker sent. */
  function Received(history: seq<Txn>, legs: seq<Leg>, m: map<nat, nat>): real {
    if legs == [] then 0.0
    else
      var i := |legs| - 1;
      Received(history, legs[..i], m)
      + if i in m && m[i] < |history| && history[m[i]].pl.Some? then history[m[i]].pl.value else 0.0
  }

  /** The losses on the legs that were stopped out, as amounts. */
  function StoppedOut(legs: seq<Leg>): real {
    if legs == [] then 0.0
    else
      var l := legs[|legs| - 1];
      StoppedOut(legs[..|legs| - 1])
      + if ExactlyClosed(l) && l.close.value.outcome.SlHit? then 0.0 - Booked(l) else 0.0
  }

  /** What the other exactly closed legs booked. */
  function Unstopped(legs: seq<Leg>): real {
    if legs == [] then 0.0
    else
      var l := legs[|legs| - 1];
      Unstopped(legs[..|legs| - 1]) + if ExactlyClosed(l) && !l.close.value.outcome.SlHit? then Booked(l) else 0.0
  }

  /** Stop-outs never add to what the rows say, and repairing a sign never takes more than it. */
  lemma {:induction false} PaidIsBounded(history: seq<Txn>, legs: seq<Leg>, n: nat, m: map<nat, nat>)
    requires Traced(history, legs) && forall i :: 0 <= i < |legs| ==> legs[i].trade < n
    requires forall i :: 0 <= i < |legs| ==> (i in m <==> ExactlyClosed(legs[i]))
    requires forall i :: 0 <= i < |legs| && i in m ==> SettledBy(history, m[i], legs[i])
    ensures BookTotal(legs, n) <= Received(history, legs, m)
    ensures BookTotal(legs, n) == Unstopped(legs) - StoppedOut(legs) && StoppedOut(legs) >= 0.0
  {
    if legs == [] {
      BookIsEmpty(n);
    } else {
      var i := |legs| - 1;
      PaidIsBounded(history, legs[..i], n, m);
      BookAddsLeg(legs[..i], legs[i], n);
      assert legs == legs[..i] + [legs[i]];
      assert TracedLeg(history, legs[i]);
    }
  }

  lemma {:induction false} BookAddsLeg(legs: seq<Leg>, l: Leg, n: nat)
    ensures BookTotal(legs + [l], n) == BookTotal(legs, n) + if l.trade < n then Booked(l) else 0.0
  {
    if n > 0 {
      BookAddsLeg(legs, l, n - 1);
      assert (legs + [l])[..|legs|] == legs;
    }
  }

  lemma {:induction false} BookIsEmpty(n: nat)
    ensures BookTotal([], n) == 0.0
  {
    if n > 0 { BookIsEmpty(n - 1); }
  }

  lemma {:induction false} BookIsPaid(history: seq<Txn>, legs: seq<Leg>, n: nat, m: map<nat, nat>)
    requires Traced(history, legs) && forall i :: 0 <= i < |legs| ==> legs[i].trade < n
    requires forall i :: 0 <= i < |legs| ==> (i in m <==> ExactlyClosed(legs[i]))
    requires forall i :: 0 <= i < |legs| && i in m ==> SettledBy(history, m[i], legs[i])
    ensures BookTotal(legs, n) == Paid(history, legs, m)
  {
    if legs == [] {
      BookIsEmpty(n);
    } else {
      var i := |legs| - 1;
      BookIsPaid(history, legs[..i], n, m);
      BookAddsLeg(legs[..i], legs[i], n);
      assert legs == legs[..i] + [legs[i]];
      assert TracedLeg(history, legs[i]);
    }
  }

  /** Every durably closed exact leg, over every run: some closing row of the broker's history is of its own
      position, and if the row has an amount the leg books it, negative when it was stopped out and with the
      row's sign when not. */
  lemma ExactCloseBooks(cfg: RiskCfg, ws: seq<World>, es: seq<Event>, k: nat, i: nat, history: seq<Txn>)
    returns (h: nat)
    requires Run(cfg, ws, es) && k < |ws| && HistoryRun(es, history)
    requires i < |ws[k].db.legs| && ExactlyClosed(ws[k].db.legs[i])
    ensures var l := ws[k].db.legs[i];
            && h < |history| && history[h].closes && l.posRef.Some? && history[h].deal == l.posRef
            && (l.close.value.pl.Some? <==> history[h].pl.Some?)
            && (history[h].pl.Some? ==>
                  && BookedFor(history[h].pl.value, l.close.value.outcome, l.close.value.pl.value)
                  && (l.close.value.outcome.SlHit? ==> l.close.value.pl.value <= 0.0))
  {
    RunTraced(cfg, ws, es, k, history);
    assert TracedLeg(history, ws[k].db.legs[i]);
    h :| SettledBy(history, h, ws[k].db.legs[i]);
  }

  /** The whole book is the sum of broker transactions, each booked on one leg at most. */
  lemma NoTransactionTwice(cfg: RiskCfg, ws: seq<World>, es: seq<Event>, k: nat, origin: Ref -> Option<Ref>,
                           history: seq<Txn>) returns (m: map<nat, nat>)
    requires Run(cfg, ws, es) && k < |ws| && TruthfulRun(ws, es, origin) && HistoryRun(es, history)
    ensures forall i :: i in m ==> i < |ws[k].db.legs| && SettledBy(history, m[i], ws[k].db.legs[i])
    ensures forall i, j :: i in m && j in m && m[i] == m[j] ==> i == j
    ensures BookTotal(ws[k].db.legs, |ws[k].db.trades|) == Paid(history, ws[k].db.legs, m)
    ensures BookTotal(ws[k].db.legs, |ws[k].db.trades|) <= Received(history, ws[k].db.legs, m)
    ensures BookTotal(ws[k].db.legs, |ws[k].db.trades|)
         == Unstopped(ws[k].db.legs) - StoppedOut(ws[k].db.legs) && StoppedOut(ws[k].db.legs) >= 0.0
  {
    var legs := ws[k].db.legs;
    RunKeeps(cfg, ws, es, k);
    RunTraced(cfg, ws, es, k, history);
    RunKeepsLinks(cfg, ws, es, k, origin);
    m := Attribution(history, legs);
    forall i, j | i in m && j in m && m[i] == m[j] ensures i == j {
      assert Holds(legs[i], legs[i].posRef.value) && Holds(legs[j], legs[i].posRef.value);
    }
    BookIsPaid(history, legs, |ws[k].db.trades|, m);
    PaidIsBounded(history, legs, |ws[k].db.trades|, m);
  }

  ghost function Attribution(history: seq<Txn>, legs: seq<Leg>): (m: map<nat, nat>)
    requires Traced(history, legs)
    ensures forall i :: i in m <==> 0 <= i < |legs| && ExactlyClosed(legs[i])
    ensures forall i :: i in m ==> SettledBy(history, m[i], legs[i])
  {
    map i: nat | i < |legs| && ExactlyClosed(legs[i]) :: RowOf(history, legs[i])
  }

  ghost function RowOf(history: seq<Txn>, l: Leg): (h: nat)
    requires TracedLeg(history, l) && ExactlyClosed(l)
    ensures SettledBy(history, h, l)
  {
    var h: nat :| SettledBy(history, h, l);
    h
  }
}
