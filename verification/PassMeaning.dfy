/** What one visit of the pass, the rule-cancel and the roll-up do to the rows, without the functions they use. */
module PassMeaning {
  import opened Wrappers
  import opened Prices
  import opened Rows
  import opened Reconcile
  import opened Book
  import opened Invariants
  import opened Ladder
  import opened TickRules
  import opened CloseMeaning

  // ---- one visit -----------------------------------------------------------------------------------

  /** The leg's order is still listed. */
  predicate Rests(c: Ctx, l: Leg) { exists key :: key in c.snap.orders && l.orderRef == Some(key) }

  /** Its time is up: of a staged trade when the whole entry is past its ceiling, or when the leg waited out its
      TTL, which for a leg the monitor placed is the deployed one if there is such. Minutes; 0 is no limit. */
  predicate Late(c: Ctx, i: nat, l: Leg) {
    var waited := c.snap.now - l.since;
    match c.snap.staged
    case None => 0 < c.snap.entryTtl && 60 * c.snap.entryTtl < waited
    case Some(cfg) =>
      var ttl := if i in c.late && cfg.deployedTtl != 0 then cfg.deployedTtl else c.snap.entryTtl;
      || (0 < cfg.maxEntryAge && c.createdAt + 60 * cfg.maxEntryAge < c.snap.now)
      || (0 < ttl && 60 * ttl < waited)
  }

  /** Position `k` came from the leg's own order. */
  predicate FromOrder(c: Ctx, l: Leg, k: nat)
    requires k < |c.snap.positions|
  {
    l.orderRef.Some? && c.snap.positions[k].order == l.orderRef
  }

  /** Position `k` is nobody's, on this instrument, and its direction is printed as the trade's. */
  predicate Unclaimed(c: Ctx, s: Scan, k: nat)
    requires k < |c.snap.positions|
  {
    var p := c.snap.positions[k];
    p.ref !in s.linked && p.onEpic && EndsWith(p.direction, if c.side == Buy then "BUY" else "SELL")
  }

  /** A direction is the trade's when it is printed with its name at the end, or as nothing else. */
  lemma PrintedAs(s: string, name: string)
    ensures EndsWith(s, name) <==> exists head: string :: s == head + name
  {
    if EndsWith(s, name) {
      assert s == s[..|s| - |name|] + name;
    }
    if head: string :| s == head + name {
      assert s[|head|..] == name;
    }
  }

  /** Row `k` is an unused close on this instrument. */
  predicate Loose(c: Ctx, s: Scan, k: nat)
    requires k < |c.snap.txns|
  {
    k !in s.used && c.snap.txns[k].closes && c.snap.txns[k].onEpic
  }

  /** The leg is now open on position `p`, at its open level unless a fill is known. */
  predicate OpensOn(a: Leg, b: Leg, p: Pos) {
    && b == a.(status := Open, posRef := Some(p.ref), fill := b.fill)
    && b.fill == if p.openPx.Some? && (a.fill == None || a.fill == Some(0.0)) then p.openPx else a.fill
  }

  /** The row that owns leg `i` moves on to `state`, unless it is settled; the other rows stay. */
  predicate Advances(a: seq<Tranche>, b: seq<Tranche>, i: nat, state: TrancheState, now: int) {
    && |b| == |a|
    && forall r :: 0 <= r < |a| ==> b[r] == if i in a[r].legs && !Settled(a[r].state)
                                            then a[r].(state := state, since := now) else a[r]
  }

  predicate Settled(state: TrancheState) {
    match state case Filled => true case TimedOut => true case Withdrawn => true case Refused => true case _ => false
  }

  predicate SamePass(s: Scan, t: Scan) { t.used == s.used && t.linked == s.linked }

  /** What a visit makes of a working leg: nothing while its order rests in time; expired when its time is up;
      open on the position its order became, the last such listed, or else on the first that is unclaimed; closed
      without money on the first loose history row; and cancelled when the broker shows nothing of it. */
  ghost predicate WorkingVisited(c: Ctx, s: Scan, t: Scan, i: nat)
    requires i < |s.legs| && i < |t.legs|
  {
    var a, b, now := s.legs[i], t.legs[i], c.snap.now;
    if Rests(c, a) then
      if Late(c, i, a) then
        b == a.(status := Expired) && Advances(s.tranches, t.tranches, i, TimedOut, now) && SamePass(s, t)
      else t == s
    else if exists k :: 0 <= k < |c.snap.positions| && FromOrder(c, a, k) then
      exists k :: 0 <= k < |c.snap.positions| && FromOrder(c, a, k) && LinkedTo(c, s, t, i, c.snap.positions[k])
                  && forall m :: k < m < |c.snap.positions| ==> !FromOrder(c, a, m)
    else if exists k :: 0 <= k < |c.snap.positions| && Unclaimed(c, s, k) then
      exists k :: 0 <= k < |c.snap.positions| && Unclaimed(c, s, k) && LinkedTo(c, s, t, i, c.snap.positions[k])
                  && forall m :: 0 <= m < k ==> !Unclaimed(c, s, m)
    else if exists k :: 0 <= k < |c.snap.txns| && Loose(c, s, k) then
      && t.linked == s.linked && Advances(s.tranches, t.tranches, i, Filled, now)
      && exists k :: 0 <= k < |c.snap.txns| && Loose(c, s, k) && t.used == s.used + {k}
                     && (forall m :: 0 <= m < k ==> !Loose(c, s, m))
                     && ClosedFrom(c, a, b, Some(c.snap.txns[k]))
    else b == a.(status := Cancelled) && Advances(s.tranches, t.tranches, i, Withdrawn, now) && SamePass(s, t)
  }

  ghost predicate LinkedTo(c: Ctx, s: Scan, t: Scan, i: nat, p: Pos)
    requires i < |s.legs| && i < |t.legs|
  {
    && OpensOn(s.legs[i], t.legs[i], p) && t.used == s.used && t.linked == s.linked + {p.ref}
    && Advances(s.tranches, t.tranches, i, Filled, c.snap.now)
  }

  /** And of an open one: nothing while its position is listed, and otherwise closed, on the first unused row of its
      own position if there is one. */
  ghost predicate OpenVisited(c: Ctx, s: Scan, t: Scan, i: nat)
    requires i < |s.legs| && i < |t.legs|
  {
    var a, b := s.legs[i], t.legs[i];
    if exists k :: 0 <= k < |c.snap.positions| && a.posRef == Some(c.snap.positions[k].ref) then t == s
    else
      && t.linked == s.linked && t.tranches == s.tranches
      && if exists k :: 0 <= k < |c.snap.txns| && OwnRow(c, s, a, k) then
           exists k :: 0 <= k < |c.snap.txns| && OwnRow(c, s, a, k) && t.used == s.used + {k}
                       && (forall m :: 0 <= m < k ==> !OwnRow(c, s, a, m))
                       && ClosedFrom(c, a, b, Some(c.snap.txns[k]))
         else t.used == s.used && ClosedFrom(c, a, b, None)
  }

  /** Row `k` is an unused close of the leg's own position. */
  predicate OwnRow(c: Ctx, s: Scan, l: Leg, k: nat)
    requires k < |c.snap.txns|
  {
    k !in s.used && c.snap.txns[k].closes && l.posRef.Some? && c.snap.txns[k].deal == l.posRef
  }

  lemma RestsIsResting(c: Ctx, l: Leg)
    ensures Rests(c, l) <==> Resting(c, l)
  {}

  lemma LateIsOverdue(c: Ctx, i: nat, l: Leg)
    ensures Late(c, i, l) <==> Overdue(c, i, l)
  {}

  lemma AdvancesOwner(rows: seq<Tranche>, i: nat, state: TrancheState, now: int)
    ensures Advances(rows, ResolveOwner(rows, i, state, now), i, state, now)
  {}

  lemma GuessIsUnclaimed(c: Ctx, s: Scan, k: nat)
    requires k < |c.snap.positions|
    ensures Claimable(c.side, s.linked, c.snap.positions[k]) <==> Unclaimed(c, s, k)
  {}

  lemma LinkIsOpen(leg: Leg, p: Pos)
    ensures OpensOn(leg, Link(leg, p), p)
  {}

  lemma WorkingVisit(c: Ctx, s: Scan, i: nat)
    requires i < |s.legs| && LegOk(s.legs[i]) && s.legs[i].status.Working?
    ensures WorkingVisited(c, s, VisitLeg(c, s, i), i)
  {
    var a, t := s.legs[i], VisitLeg(c, s, i);
    RestsIsResting(c, a);
    LateIsOverdue(c, i, a);
    AdvancesOwner(s.tranches, i, TimedOut, c.snap.now);
    AdvancesOwner(s.tranches, i, Filled, c.snap.now);
    AdvancesOwner(s.tranches, i, Withdrawn, c.snap.now);
    if !Resting(c, a) {
      FallOut(c, s, i);
    }
  }

  /** A working leg whose order is gone. */
  lemma FallOut(c: Ctx, s: Scan, i: nat)
    requires i < |s.legs| && LegOk(s.legs[i]) && s.legs[i].status.Working? && !Resting(c, s.legs[i])
    ensures WorkingVisited(c, s, VisitLeg(c, s, i), i)
  {
    var a, t := s.legs[i], VisitLeg(c, s, i);
    var exact, guess := FilledBy(c.snap.positions, a.orderRef), Guess(c.side, c.snap.positions, s.linked);
    RestsIsResting(c, a);
    AdvancesOwner(s.tranches, i, Filled, c.snap.now);
    AdvancesOwner(s.tranches, i, Withdrawn, c.snap.now);
    if exact.Some? {
      var k := LastFromOrder(c, a);
      LinkIsOpen(a, exact.value);
      assert FromOrder(c, a, k) && LinkedTo(c, s, t, i, c.snap.positions[k]);
    } else if guess.Some? {
      var k := FirstUnclaimed(c, s);
      LinkIsOpen(a, guess.value);
      assert Unclaimed(c, s, k) && LinkedTo(c, s, t, i, c.snap.positions[k]);
    } else {
      forall k: nat | k < |c.snap.positions| ensures !Unclaimed(c, s, k) {
        GuessIsUnclaimed(c, s, k);
      }
      GiveUp(c, s, i);
    }
  }

  lemma {:induction false} LastFiled(ps: seq<Pos>, order: Option<Ref>) returns (k: nat)
    requires FilledBy(ps, order).Some?
    ensures k < |ps| && ps[k].order == order && FilledBy(ps, order) == Some(ps[k])
    ensures forall m :: k < m < |ps| ==> ps[m].order != order
  {
    k := |ps| - 1;
    if ps[k].order != order {
      k := LastFiled(ps[..k], order);
    }
  }

  lemma LastFromOrder(c: Ctx, l: Leg) returns (k: nat)
    requires FilledBy(c.snap.positions, l.orderRef).Some?
    ensures k < |c.snap.positions| && FromOrder(c, l, k)
    ensures FilledBy(c.snap.positions, l.orderRef) == Some(c.snap.positions[k])
    ensures forall m :: k < m < |c.snap.positions| ==> !FromOrder(c, l, m)
  {
    k := LastFiled(c.snap.positions, l.orderRef);
  }

  lemma {:induction false} FirstGuessed(side: Side, ps: seq<Pos>, linked: set<Ref>) returns (k: nat)
    requires Guess(side, ps, linked).Some?
    ensures k < |ps| && Claimable(side, linked, ps[k]) && Guess(side, ps, linked) == Some(ps[k])
    ensures forall m :: 0 <= m < k ==> !Claimable(side, linked, ps[m])
  {
    if Claimable(side, linked, ps[0]) {
      k := 0;
    } else {
      k := FirstGuessed(side, ps[1..], linked);
      k := k + 1;
    }
  }

  lemma FirstUnclaimed(c: Ctx, s: Scan) returns (k: nat)
    requires Guess(c.side, c.snap.positions, s.linked).Some?
    ensures k < |c.snap.positions| && Unclaimed(c, s, k)
    ensures Guess(c.side, c.snap.positions, s.linked) == Some(c.snap.positions[k])
    ensures forall m :: 0 <= m < k ==> !Unclaimed(c, s, m)
  {
    k := FirstGuessed(c.side, c.snap.positions, s.linked);
    forall m: nat | m <= k ensures Claimable(c.side, s.linked, c.snap.positions[m]) <==> Unclaimed(c, s, m) {
      GuessIsUnclaimed(c, s, m);
    }
  }

  lemma {:induction false} LooseRow(c: Ctx, s: Scan, from: nat)
    requires from <= |c.snap.txns|
    ensures var m := TxnByInstrument(c.snap.txns, s.used, from);
            && (m.Some? ==> from <= m.value < |c.snap.txns| && Loose(c, s, m.value)
                            && forall k :: from <= k < m.value ==> !Loose(c, s, k))
            && (m.None? ==> forall k :: from <= k < |c.snap.txns| ==> !Loose(c, s, k))
    decreases |c.snap.txns| - from
  {
    if from < |c.snap.txns| {
      LooseRow(c, s, from + 1);
    }
  }

  lemma GiveUp(c: Ctx, s: Scan, i: nat)
    requires i < |s.legs| && LegOk(s.legs[i]) && s.legs[i].status.Working?
    ensures var t, m := CloseOrGiveUp(c, s, i, false, Cancelled, Withdrawn), TxnByInstrument(c.snap.txns, s.used);
            && t.linked == s.linked && |t.legs| == |s.legs|
            && (m.Some? ==> && m.value < |c.snap.txns| && Loose(c, s, m.value) && t.used == s.used + {m.value}
                            && (forall k :: 0 <= k < m.value ==> !Loose(c, s, k))
                            && Advances(s.tranches, t.tranches, i, Filled, c.snap.now)
                            && ClosedFrom(c, s.legs[i], t.legs[i], Some(c.snap.txns[m.value])))
            && (m.None? ==> && (forall k :: 0 <= k < |c.snap.txns| ==> !Loose(c, s, k)) && t.used == s.used
                            && Advances(s.tranches, t.tranches, i, Withdrawn, c.snap.now)
                            && t.legs[i] == s.legs[i].(status := Cancelled))
  {
    LooseRow(c, s, 0);
    var m := TxnByInstrument(c.snap.txns, s.used);
    if m.Some? {
      SettleMeans(c, s.legs[i], Some(c.snap.txns[m.value]));
    }
    AdvancesOwner(s.tranches, i, Filled, c.snap.now);
    AdvancesOwner(s.tranches, i, Withdrawn, c.snap.now);
  }

  lemma {:induction false} FirstOwnRow(c: Ctx, s: Scan, l: Leg, from: nat)
    requires from <= |c.snap.txns|
    ensures var m := TxnByDeal(c.snap.txns, s.used, l.posRef, from);
            && (m.Some? ==> from <= m.value < |c.snap.txns| && OwnRow(c, s, l, m.value)
                            && forall k :: from <= k < m.value ==> !OwnRow(c, s, l, k))
            && (m.None? ==> forall k :: from <= k < |c.snap.txns| ==> !OwnRow(c, s, l, k))
    decreases |c.snap.txns| - from
  {
    if from < |c.snap.txns| {
      FirstOwnRow(c, s, l, from + 1);
    }
  }

  lemma OpenVisit(c: Ctx, s: Scan, i: nat)
    requires i < |s.legs| && LegOk(s.legs[i]) && s.legs[i].status.Open?
    ensures OpenVisited(c, s, VisitLeg(c, s, i), i)
  {
    var a, m := s.legs[i], TxnByDeal(c.snap.txns, s.used, s.legs[i].posRef);
    FirstOwnRow(c, s, a, 0);
    if Gone(c, a) {
      SettleMeans(c, a, Row(c, m));
      if m.Some? {
        assert OwnRow(c, s, a, m.value);
      }
    }
  }

  /** No other leg changes, and a leg that is neither working nor open is left alone. */
  lemma VisitTouches(c: Ctx, s: Scan, i: nat)
    requires i < |s.legs|
    ensures |VisitLeg(c, s, i).legs| == |s.legs|
    ensures forall j :: 0 <= j < |s.legs| && j != i ==> VisitLeg(c, s, i).legs[j] == s.legs[j]
    ensures s.legs[i].status != Working && s.legs[i].status != Open ==> VisitLeg(c, s, i) == s
  {}

  // ---- the rule-cancel -----------------------------------------------------------------------------

  /** Some leg of the trade is, or was, in the market. */
  predicate BeenIn(d: Db, t: nat) {
    exists i :: 0 <= i < |d.legs| && d.legs[i].trade == t && (d.legs[i].status == Open || d.legs[i].status == Closed)
  }

  predicate StillIn(d: Db, t: nat) {
    exists i :: 0 <= i < |d.legs| && d.legs[i].trade == t && d.legs[i].status == Open
  }

  predicate Ratcheting(d: Db, t: nat) { exists i :: 0 <= i < |d.legs| && d.legs[i].trade == t && d.legs[i].slMoved }

  /** Leg `i`'s order is resting at the broker, which lets it go. */
  predicate LetGo(d: Db, t: nat, v: View, i: nat)
    requires i < |d.legs|
  {
    var l := d.legs[i];
    l.trade == t && l.status == Working
    && exists key :: key in v.snap.orders && key in v.broker.cancels && l.orderRef == Some(key)
  }

  /** Once the trade has been in the market: when it is out again, or a target was hit or a stop moved, its
      resting orders go and the rows that own them are withdrawn; and when it is out, whatever of it still waits
      is withdrawn too, with the legs not placed. */
  ghost predicate RetiredAs(d: Db, e: Db, t: nat, v: View, tpsHit: bool) {
    if v.cancelOnStop && BeenIn(d, t) && (!StillIn(d, t) || tpsHit || Ratcheting(d, t)) then
      && SameSize(d, e) && e.trades == d.trades
      && (forall r :: 0 <= r < |d.tranches| ==>
            e.tranches[r] == if RowGoes(d, t, v, r) then d.tranches[r].(state := Withdrawn, since := v.snap.now)
                             else d.tranches[r])
      && forall i :: 0 <= i < |d.legs| ==>
           e.legs[i] == if LegGoes(d, t, v, i) then d.legs[i].(status := Cancelled) else d.legs[i]
    else e == d
  }

  ghost predicate RowGoes(d: Db, t: nat, v: View, r: nat)
    requires r < |d.tranches|
  {
    var tr := d.tranches[r];
    || (OrderGoes(d, t, v, tr) && !Settled(tr.state))
    || (!StillIn(d, t) && tr.trade == t && tr.state == Waiting)
  }

  ghost predicate LegGoes(d: Db, t: nat, v: View, i: nat)
    requires i < |d.legs|
  {
    || LetGo(d, t, v, i)
    || (!StillIn(d, t) && d.legs[i].status == Staged
        && exists r :: 0 <= r < |d.tranches| && i in d.tranches[r].legs && StaysWaiting(d, t, v, r))
  }

  /** Row `r` waits, and owns no order that goes. */
  ghost predicate StaysWaiting(d: Db, t: nat, v: View, r: nat)
    requires r < |d.tranches|
  {
    var tr := d.tranches[r];
    tr.trade == t && tr.state == Waiting && !OrderGoes(d, t, v, tr)
  }

  /** Some order of the row goes. */
  ghost predicate OrderGoes(d: Db, t: nat, v: View, tr: Tranche) {
    exists i :: 0 <= i < |d.legs| && i in tr.legs && LetGo(d, t, v, i)
  }

  lemma PulledIsLetGo(d: Db, t: nat, v: View, i: nat)
    requires i < |d.legs|
    ensures Pulled(d.legs[i], t, v.snap.orders * v.broker.cancels) <==> LetGo(d, t, v, i)
  {}

  /** With the resting orders gone, before the rows that wait are withdrawn. */
  lemma PulledMeans(d: Db, t: nat, v: View)
    ensures var m := RetirePulled(d, t, v.snap.orders * v.broker.cancels, v.snap.now, |d.legs|);
            && SameSize(d, m) && m.trades == d.trades
            && (forall r: nat :: r < |d.tranches| ==>
                  m.tranches[r] == if OrderGoes(d, t, v, d.tranches[r]) && !Settled(d.tranches[r].state)
                                   then d.tranches[r].(state := Withdrawn, since := v.snap.now) else d.tranches[r])
            && (forall i: nat :: i < |d.legs| ==>
                  m.legs[i] == if LetGo(d, t, v, i) then d.legs[i].(status := Cancelled) else d.legs[i])
  {
    var keys := v.snap.orders * v.broker.cancels;
    forall i: nat | i < |d.legs| ensures Pulled(d.legs[i], t, keys) <==> LetGo(d, t, v, i) {
      PulledIsLetGo(d, t, v, i);
    }
    forall r: nat | r < |d.tranches|
      ensures LosesLeg(d, t, keys, |d.legs|, d.tranches[r]) <==> OrderGoes(d, t, v, d.tranches[r])
    {}
  }

  /** The rows that still wait once the orders are gone. */
  lemma WaitsOn(d: Db, t: nat, v: View, r: nat)
    requires r < |d.tranches|
    ensures var m := RetirePulled(d, t, v.snap.orders * v.broker.cancels, v.snap.now, |d.legs|);
            WaitsIn(m, r, t) <==> StaysWaiting(d, t, v, r)
  {
    PulledMeans(d, t, v);
  }

  lemma RetiredMeansRows(d: Db, t: nat, v: View, tpsHit: bool)
    ensures RetiredAs(d, Retired(d, t, v, tpsHit), t, v, tpsHit)
  {
    assert EverFilled(d, t) == BeenIn(d, t) && AnyOpen(d, t) == StillIn(d, t) && AnyMoved(d, t) == Ratcheting(d, t);
    PulledMeans(d, t, v);
    forall r: nat | r < |d.tranches|
      ensures WaitsIn(RetirePulled(d, t, v.snap.orders * v.broker.cancels, v.snap.now, |d.legs|), r, t)
         <==> StaysWaiting(d, t, v, r)
    {
      WaitsOn(d, t, v, r);
    }
  }

  // ---- the roll-up ---------------------------------------------------------------------------------

  /** What a leg books: the money of its close, when it is known and not another position's. */
  predicate Books(l: Leg, amount: real) {
    match l.close
    case Some(close) =>
      if l.status == Closed && close.pl.Some? && close.basis in {None, Some(Exact)} then amount == close.pl.value
      else amount == 0.0
    case None => amount == 0.0
  }

  lemma LegBooks(l: Leg)
    ensures Books(l, Booked(l))
  {}

  /** Something of the trade is live or waits. */
  predicate Unfinished(d: Db, t: nat) {
    || (exists i :: 0 <= i < |d.legs| && d.legs[i].trade == t && d.legs[i].status in {Pending, Working, Open})
    || (exists r :: 0 <= r < |d.tranches| && d.tranches[r].trade == t && d.tranches[r].state == Waiting)
  }

  /** A roll-up stores the sum of what the legs book, and closes the trade when nothing of it is unfinished; it
      is partial as soon as some leg is closed, and otherwise stays what it was. */
  lemma RollUpMeans(d: Db, t: nat)
    requires t < |d.trades|
    ensures var e, status := RolledUp(d, t), RolledUp(d, t).trades[t].status;
            && e == d.(trades := d.trades[t := d.trades[t].(realized := AuditSum(d.legs, t), status := status)])
            && (!Unfinished(d, t) ==> status == Done)
            && (Unfinished(d, t) ==>
                  status == if exists i :: 0 <= i < |d.legs| && d.legs[i].trade == t && d.legs[i].status == Closed
                            then Partial else d.trades[t].status)
  {}

  /** The sum of what the legs book, leg by leg. */
  lemma SumAddsLegs(legs: seq<Leg>, l: Leg, t: nat)
    ensures AuditSum([], t) == 0.0
    ensures l.trade != t ==> AuditSum(legs + [l], t) == AuditSum(legs, t)
    ensures l.trade == t ==> Books(l, AuditSum(legs + [l], t) - AuditSum(legs, t))
  {
    LegBooks(l);
    assert (legs + [l])[..|legs|] == legs;
  }
}
