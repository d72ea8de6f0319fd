/**
 The executor's placement of one account's ladder: each signal leg tried at most twice, the rest
 staged and grouped into the tranches the monitor will drive.
 */
module Fanout {
  import opened Wrappers
  import opened Prices
  import opened Rows
  import opened Book
  import opened Invariants

  /** A sized leg of the plan. `tranche` is what it waits for, if the plan is a ladder. */
  datatype PlannedLeg = PlannedLeg(tpIndex: int, kind: OrderKind, entry: real, tp: real, sl: real, lot: real,
                                   tranche: Option<When>, trigger: Option<real>)

  // ---- recovering a refusal ----------------------------------------------------------------------

  /** What the broker's error text is recognised as. */
  datatype Complaint = LimitCrossed | TpOutOfBand(bound: real) | Unrecognised

  datatype Retry = AsMarket | ClampTp(tp: real)

  /** Target `a` is on the profitable side of the entry, and no further out than `b`. */
  predicate Closer(side: Side, entry: real, a: real, b: real) {
    if side.Buy? then entry < a <= b else b <= a < entry
  }

  /** How to place a refused leg once more, if at all. Anything that would not be the same trade with a
      nearer target, or at a better price, is left refused. */
  function RetryPlan(c: Complaint, side: Side, kind: OrderKind, entry: real, tp: real): (r: Option<Retry>)
    ensures r == Some(AsMarket) <==> c.LimitCrossed? && !kind.Market?
    ensures r.Some? && r.value.ClampTp? ==> Closer(side, entry, r.value.tp, tp)
    ensures c.TpOutOfBand? && Closer(side, entry, c.bound, tp) ==> r == Some(ClampTp(c.bound))
  {
    match c
    case LimitCrossed => if kind.Market? then None else Some(AsMarket)
    case TpOutOfBand(bound) =>
      if (if side.Buy? then !(bound > entry) else !(bound < entry)) then None
      else if (if side.Buy? then bound > tp else bound < tp) then None
      else Some(ClampTp(bound))
    case Unrecognised => None
  }

  /** The broker's answer to one order. */
  datatype Answer = Took(ref: Ref, filled: bool, fill: Option<real>) | Complained(c: Complaint)

  /** What was finally sent: as planned, or on the second try at market, or with a nearer target. */
  predicate SentAs(side: Side, p: PlannedLeg, kind: OrderKind, tp: real, tries: nat) {
    || (kind == p.kind && tp == p.tp)
    || (tries == 2 && kind == Market && p.kind != Market && tp == p.tp)
    || (tries == 2 && kind == p.kind && Closer(side, p.entry, tp, p.tp))
  }

  /** How the broker answers a leg's attempts, and whether recording an accepted order works. */
  datatype Replies = Replies(first: Answer, second: Answer, recorded: bool)

  /** The last order sent for a leg, and its answer. */
  datatype LastOrder = LastOrder(answer: Answer, kind: OrderKind, tp: real, tries: nat)

  /** One try, and one more when the first was refused in a way the retry plan knows. */
  function Placement(side: Side, p: PlannedLeg, b: Replies): (s: LastOrder)
    ensures 1 <= s.tries <= 2 && SentAs(side, p, s.kind, s.tp, s.tries)
    ensures s.tries == 2 <==> b.first.Complained? && RetryPlan(b.first.c, side, p.kind, p.entry, p.tp).Some?
    ensures s.answer == if s.tries == 1 then b.first else b.second
  {
    if b.first.Took? then LastOrder(b.first, p.kind, p.tp, 1)
    else
      match RetryPlan(b.first.c, side, p.kind, p.entry, p.tp)
      case None => LastOrder(b.first, p.kind, p.tp, 1)
      case Some(AsMarket) => LastOrder(b.second, Market, p.tp, 2)
      case Some(ClampTp(tp)) => LastOrder(b.second, p.kind, tp, 2)
  }

  method PlaceWithRetry(side: Side, p: PlannedLeg, b: Replies) returns (s: LastOrder)
    ensures s == Placement(side, p, b)
  {
    var kind, tp, tries, answer := p.kind, p.tp, 0, b.first;
    while tries < 2
      invariant tries == 0 ==> kind == p.kind && tp == p.tp
      invariant tries == 1 ==> Placement(side, p, b) == LastOrder(b.second, kind, tp, 2)
      invariant tries < 2
    {
      tries := tries + 1;
      answer := if tries == 1 then b.first else b.second;
      if answer.Took? || tries == 2 {
        break;
      }
      var plan := RetryPlan(answer.c, side, kind, p.entry, tp);
      match plan {
        case None => break;
        case Some(AsMarket) => kind := Market;
        case Some(ClampTp(bound)) => tp := bound;
      }
    }
    s := LastOrder(answer, kind, tp, tries);
  }

  // ---- one leg's row -----------------------------------------------------------------------------

  predicate Waits(p: PlannedLeg) { p.tranche.Some? && p.tranche != Some(Signal) }

  function NewRow(t: nat, p: PlannedLeg, now: int): Leg {
    Leg(t, p.tpIndex, p.kind, p.entry, p.tp, p.lot, p.sl, p.sl, false, Pending, None, None, None, now, None)
  }

  /** The row of an accepted leg, as it was finally sent. */
  function TakenRow(row: Leg, a: Answer, kind: OrderKind, tp: real): Leg
    requires a.Took?
  {
    var sent := row.(kind := kind, tp := tp);
    if kind.Market?
    then sent.(posRef := Some(a.ref), status := if a.filled then Open else Pending,
               fill := if a.fill == Some(0.0) then None else a.fill)
    else sent.(orderRef := Some(a.ref), status := Working)
  }

  datatype Fate = Landed | Declined | Held

  function FateOf(s: LegStatus): Fate {
    if s.Staged? then Held else if s.Rejected? then Declined else Landed
  }

  /** Leg `p` came out as `row`: held iff it waits for a trigger, its size and stop as planned. */
  predicate Outcome(side: Side, t: nat, p: PlannedLeg, row: Leg, tries: nat) {
    && row.trade == t && row.tpIndex == p.tpIndex && row.entry == p.entry && row.lot == p.lot
    && row.sl == p.sl && row.initialSl == p.sl && !row.slMoved && LegOk(row) && Fresh(row.status)
    && (FateOf(row.status).Held? <==> Waits(p)) && (tries == 0 <==> Waits(p)) && tries <= 2
    && SentAs(side, p, row.kind, row.tp, tries)
    && (FateOf(row.status).Landed? ==> HasRef(row))
  }

  /** The row a leg ends as. */
  function RowOf(side: Side, t: nat, p: PlannedLeg, b: Replies, now: int): Leg {
    var row, s := NewRow(t, p, now), Placement(side, p, b);
    if Waits(p) then row.(status := Staged)
    else if s.answer.Complained? then row.(status := Rejected)
    else if b.recorded then TakenRow(row, s.answer, s.kind, s.tp)
    else TakenRow(row, s.answer, s.kind, s.tp).(status := Rejected)
  }

  function TriesOf(side: Side, p: PlannedLeg, b: Replies): nat {
    if Waits(p) then 0 else Placement(side, p, b).tries
  }

  /** The row of a leg whose last order `s` the broker took: a market order is open at its fill, or pending
      without one, on the position the broker named; any other order rests, on the order it named. A fill of
      0 is not a fill. */
  predicate LandedAs(row: Leg, s: LastOrder) {
    s.answer.Took? && row.kind == s.kind && row.tp == s.tp && row.close.None?
    && if s.kind.Market? then
         && (if s.answer.filled then row.status.Open? else row.status.Pending?)
         && row.posRef == Some(s.answer.ref) && row.orderRef.None?
         && (row.fill.Some? <==> s.answer.fill.Some? && s.answer.fill.value != 0.0)
         && (row.fill.Some? ==> row.fill == s.answer.fill)
       else row.status.Working? && row.orderRef == Some(s.answer.ref) && row.posRef.None? && row.fill.None?
  }

  /** A leg is placed exactly when it does not wait, its last order was taken and that was recorded; its row is
      then what that order and its answer say, and otherwise it is staged or rejected. */
  lemma RowOfMeans(side: Side, t: nat, p: PlannedLeg, b: Replies, now: int)
    ensures Outcome(side, t, p, RowOf(side, t, p, b, now), TriesOf(side, p, b))
    ensures FateOf(RowOf(side, t, p, b, now).status).Landed?
       <==> !Waits(p) && Placement(side, p, b).answer.Took? && b.recorded
    ensures var row := RowOf(side, t, p, b, now);
            && (FateOf(row.status).Landed? ==> LandedAs(row, Placement(side, p, b)))
            && (row.status.Staged? <==> p.tranche.Some? && p.tranche != Some(Signal))
            && (!FateOf(row.status).Landed? && !row.status.Staged? ==> row.status.Rejected?)
            && row.since == now
  {}

  /** A market order that the broker took, and that was recorded, without a fill. */
  predicate LeftUnfilled(side: Side, p: PlannedLeg, b: Replies) {
    var s := Placement(side, p, b);
    (p.tranche.None? || p.tranche == Some(Signal)) && s.kind.Market? && s.answer.Took? && b.recorded && !s.answer.filled
  }

  /** Such an order leaves a pending leg, and nothing else does. */
  lemma PendingWhenUnfilled(side: Side, t: nat, p: PlannedLeg, b: Replies, now: int)
    ensures RowOf(side, t, p, b, now).status.Pending? <==> LeftUnfilled(side, p, b)
  {
    RowOfMeans(side, t, p, b, now);
  }

  method PlaceOne(side: Side, t: nat, p: PlannedLeg, b: Replies, now: int) returns (row: Leg, tries: nat)
    ensures row == RowOf(side, t, p, b, now) && tries == TriesOf(side, p, b)
    ensures FateOf(row.status).Landed? ==> LandedAs(row, Placement(side, p, b))
    ensures row.status.Pending? <==> LeftUnfilled(side, p, b)
  {
    PendingWhenUnfilled(side, t, p, b, now);
    RowOfMeans(side, t, p, b, now);
    row, tries := NewRow(t, p, now), 0;
    if Waits(p) {
      row := row.(status := Staged);
      return;
    }
    var s := PlaceWithRetry(side, p, b);
    tries := s.tries;
    if s.answer.Complained? {
      row := row.(status := Rejected);
    } else {
      row := TakenRow(row, s.answer, s.kind, s.tp);
      if !b.recorded {
        row := row.(status := Rejected);
      }
    }
  }

  // ---- sizes -------------------------------------------------------------------------------------

  function PlannedLots(legs: seq<PlannedLeg>): real {
    if legs == [] then 0.0 else PlannedLots(legs[..|legs| - 1]) + legs[|legs| - 1].lot
  }

  /** Lots of the rows that met this fate. */
  function LotsBy(rows: seq<Leg>, fate: Fate): real {
    if rows == [] then 0.0
    else
      var last := rows[|rows| - 1];
      LotsBy(rows[..|rows| - 1], fate) + if FateOf(last.status) == fate then last.lot else 0.0
  }

  /** Nothing of the plan is lost: every lot is placed, refused or held. */
  lemma {:induction false} LotsConserved(legs: seq<PlannedLeg>, rows: seq<Leg>)
    requires |rows| == |legs| && forall i :: 0 <= i < |rows| ==> rows[i].lot == legs[i].lot
    ensures LotsBy(rows, Landed) + LotsBy(rows, Declined) + LotsBy(rows, Held) == PlannedLots(legs)
  {
    if rows != [] {
      LotsConserved(legs[..|legs| - 1], rows[..|rows| - 1]);
    }
  }

  // ---- the tranches ------------------------------------------------------------------------------

  datatype Group = Group(at: When, ids: seq<nat>)

  /** The first `k` legs by trigger, ids counted from `base`. */
  ghost predicate Grouped(groups: seq<Group>, legs: seq<PlannedLeg>, base: nat, k: nat) {
    && k <= |legs|
    && (forall a, b :: 0 <= a < |groups| && 0 <= b < |groups| && groups[a].at == groups[b].at ==> a == b)
    && (forall a :: 0 <= a < |groups| ==> groups[a].ids != [] && Distinct(groups[a].ids)
                                          && AllWait(groups[a], legs, base, k))
    && (forall i :: 0 <= i < k && legs[i].tranche.Some? ==> InGroup(groups, legs[i].tranche.value, base + i))
  }

  predicate AllWait(g: Group, legs: seq<PlannedLeg>, base: nat, k: nat)
    requires k <= |legs|
  {
    forall m :: 0 <= m < |g.ids| ==> base <= g.ids[m] < base + k && legs[g.ids[m] - base].tranche == Some(g.at)
  }

  ghost predicate InGroup(groups: seq<Group>, at: When, id: nat) {
    exists a :: 0 <= a < |groups| && groups[a].at == at && id in groups[a].ids
  }

  lemma GroupGrows(g: Group, legs: seq<PlannedLeg>, base: nat, k: nat)
    requires k < |legs| && AllWait(g, legs, base, k) && Distinct(g.ids)
    ensures AllWait(g, legs, base, k + 1)
    ensures legs[k].tranche == Some(g.at)
            ==> AllWait(Group(g.at, g.ids + [base + k]), legs, base, k + 1) && Distinct(g.ids + [base + k])
  {}

  /** Replacing or adding group `a` with one that also has leg `k`. */
  lemma GroupAdded(groups: seq<Group>, more: seq<Group>, legs: seq<PlannedLeg>, base: nat, k: nat, a: nat, g: Group)
    requires k < |legs| && legs[k].tranche == Some(g.at) && Grouped(groups, legs, base, k) && a <= |groups|
    requires more == if a < |groups| then groups[a := g] else groups + [g]
    requires forall b :: 0 <= b < |groups| && b != a ==> groups[b].at != g.at
    requires a < |groups| ==> groups[a].at == g.at && g.ids == groups[a].ids + [base + k]
    requires a == |groups| ==> g.ids == [base + k]
    ensures Grouped(more, legs, base, k + 1)
  {
    forall b | 0 <= b < |more|
      ensures more[b].ids != [] && Distinct(more[b].ids) && AllWait(more[b], legs, base, k + 1)
    {
      if b < |groups| {
        GroupGrows(groups[b], legs, base, k);
      }
    }
    forall i | 0 <= i < k + 1 && legs[i].tranche.Some? ensures InGroup(more, legs[i].tranche.value, base + i) {
      if i == k {
        assert base + k in more[a].ids;
      } else {
        StillInGroup(groups, more, a, g, legs[i].tranche.value, base + i);
      }
    }
  }

  lemma StillInGroup(groups: seq<Group>, more: seq<Group>, a: nat, g: Group, at: When, id: nat)
    requires a <= |groups| && more == if a < |groups| then groups[a := g] else groups + [g]
    requires a < |groups| ==> groups[a].at == g.at && forall x :: x in groups[a].ids ==> x in g.ids
    requires InGroup(groups, at, id)
    ensures InGroup(more, at, id)
  {
    var b :| 0 <= b < |groups| && groups[b].at == at && id in groups[b].ids;
    assert more[b].at == groups[b].at && id in more[b].ids;
  }

  lemma GroupSkipped(groups: seq<Group>, legs: seq<PlannedLeg>, base: nat, k: nat)
    requires k < |legs| && legs[k].tranche.None? && Grouped(groups, legs, base, k)
    ensures Grouped(groups, legs, base, k + 1)
  {}

  /** Put leg `k` with the others that wait for the same trigger. */
  method AddToGroup(groups: seq<Group>, legs: seq<PlannedLeg>, base: nat, k: nat) returns (more: seq<Group>)
    requires k < |legs| && legs[k].tranche.Some? && Grouped(groups, legs, base, k)
    ensures Grouped(more, legs, base, k + 1)
  {
    var at := legs[k].tranche.value;
    var a := 0;
    while a < |groups| && groups[a].at != at
      invariant a <= |groups| && forall b :: 0 <= b < a ==> groups[b].at != at
    {
      a := a + 1;
    }
    var g := Group(at, if a < |groups| then groups[a].ids + [base + k] else [base + k]);
    more := if a < |groups| then groups[a := g] else groups + [g];
    GroupAdded(groups, more, legs, base, k, a, g);
  }

  /** A ladder's cancel row, with the level that fires it. */
  datatype CancelAt = CancelAt(at: When, level: Option<real>)

  /** The level a trigger waits for: that of the first leg planned for it. */
  function TriggerOf(legs: seq<PlannedLeg>, at: When): (level: Option<real>)
    ensures forall k :: 0 <= k < |legs| && PlannedFirst(legs, at, k) ==> level == legs[k].trigger
  {
    if legs == [] then None
    else
      var init := legs[..|legs| - 1];
      if exists k :: 0 <= k < |init| && init[k].tranche == Some(at) then TriggerOf(init, at)
      else legs[|legs| - 1].trigger
  }

  /** Leg `k` is the first of the plan to wait for `at`. */
  predicate PlannedFirst(legs: seq<PlannedLeg>, at: When, k: nat)
    requires k < |legs|
  {
    legs[k].tranche == Some(at) && forall j :: 0 <= j < k ==> legs[j].tranche != Some(at)
  }

  /** A rung's row: its group's legs, waiting for its trigger's level, or deployed with the signal. */
  ghost predicate FromGroup(tr: Tranche, g: Group, t: nat, legs: seq<PlannedLeg>, now: int) {
    && tr.trade == t && tr.role == Rung(g.at) && tr.legs == g.ids && tr.since == now
    && tr.state == (if g.at.Signal? then Deployed else Waiting)
    && forall k :: 0 <= k < |legs| && PlannedFirst(legs, g.at, k) ==> tr.level == legs[k].trigger
  }

  /** One waiting row per cancel that has a level, in order. */
  function CancelRows(t: nat, cancels: seq<CancelAt>, now: int): seq<Tranche> {
    if cancels == [] then []
    else
      var rest, c := CancelRows(t, cancels[..|cancels| - 1], now), cancels[|cancels| - 1];
      if c.level.Some? then rest + [Tranche(t, CancelRow(c.at), c.level, [], Waiting, now)] else rest
  }

  /** A row for each group and after them the cancel rows, and no other. */
  ghost predicate LadderRows(groups: seq<Group>, tranches: seq<Tranche>, t: nat, legs: seq<PlannedLeg>,
                             cancels: seq<CancelAt>, now: int)
  {
    && |groups| <= |tranches|
    && (forall a :: 0 <= a < |groups| ==> FromGroup(tranches[a], groups[a], t, legs, now))
    && tranches[|groups|..] == CancelRows(t, cancels, now)
  }

  predicate CancelRowOf(tr: Tranche, t: nat) {
    tr.trade == t && tr.role.CancelRow? && tr.legs == [] && tr.state.Waiting? && tr.level.Some?
  }

  /** The row that waits for a cancel level is there exactly when the ladder has that cancel, and there are
      no other rows. */
  lemma {:induction false} CancelRowsMean(t: nat, cancels: seq<CancelAt>, now: int, at: When, level: real)
    ensures Tranche(t, CancelRow(at), Some(level), [], Waiting, now) in CancelRows(t, cancels, now)
            <==> CancelAt(at, Some(level)) in cancels
    ensures forall r :: 0 <= r < |CancelRows(t, cancels, now)| ==> CancelRowOf(CancelRows(t, cancels, now)[r], t)
  {
    if cancels != [] {
      var init, c := cancels[..|cancels| - 1], cancels[|cancels| - 1];
      CancelRowsMean(t, init, now, at, level);
      assert cancels == init + [c];
    }
  }

  /** One row per trigger, then one per cancel row that has a level. */
  method BuildTranches(t: nat, legs: seq<PlannedLeg>, base: nat, groups: seq<Group>, cancels: seq<CancelAt>, now: int)
    returns (tranches: seq<Tranche>)
    requires Grouped(groups, legs, base, |legs|)
    ensures LadderRows(groups, tranches, t, legs, cancels, now)
  {
    tranches := [];
    for a := 0 to |groups|
      invariant |tranches| == a && forall b :: 0 <= b < a ==> FromGroup(tranches[b], groups[b], t, legs, now)
    {
      var g := groups[a];
      var state := if g.at.Signal? then Deployed else Waiting;
      tranches := tranches + [Tranche(t, Rung(g.at), TriggerOf(legs, g.at), g.ids, state, now)];
    }
    for c := 0 to |cancels|
      invariant LadderRows(groups, tranches, t, legs, cancels[..c], now)
    {
      assert cancels[..c + 1][..c] == cancels[..c];
      if cancels[c].level.Some? {
        var row := Tranche(t, CancelRow(cancels[c].at), cancels[c].level, [], Waiting, now);
        assert (tranches + [row])[|groups|..] == tranches[|groups|..] + [row];
        tranches := tranches + [row];
      }
    }
    assert cancels[..|cancels|] == cancels;
  }

  // ---- the whole fanout --------------------------------------------------------------------------

  ghost predicate LadderShape(groups: seq<Group>, tranches: seq<Tranche>, t: nat) {
    && |groups| <= |tranches|
    && (forall a :: 0 <= a < |groups| ==>
          (&& tranches[a].trade == t && tranches[a].role == Rung(groups[a].at) && tranches[a].legs == groups[a].ids
           && tranches[a].state == if groups[a].at.Signal? then Deployed else Waiting))
    && (forall r :: |groups| <= r < |tranches| ==> CancelRowOf(tranches[r], t))
  }

  lemma LadderShaped(groups: seq<Group>, tranches: seq<Tranche>, t: nat, legs: seq<PlannedLeg>, cancels: seq<CancelAt>,
                     now: int)
    requires LadderRows(groups, tranches, t, legs, cancels, now)
    ensures LadderShape(groups, tranches, t)
  {
    forall r | |groups| <= r < |tranches| ensures CancelRowOf(tranches[r], t) {
      CancelRowsMean(t, cancels, now, Tp1, 0.0);
      assert tranches[r] == tranches[|groups|..][r - |groups|];
    }
    forall a | 0 <= a < |groups| ensures FromGroup(tranches[a], groups[a], t, legs, now) {}
  }

  /** What the fanout commits is a good batch: disjoint tranches over fresh legs. */
  lemma LadderIsGood(side: Side, t: nat, base: nat, legs: seq<PlannedLeg>, rows: seq<Leg>, tries: seq<nat>,
                     groups: seq<Group>, tranches: seq<Tranche>)
    requires |rows| == |legs| == |tries| && forall i :: 0 <= i < |legs| ==> Outcome(side, t, legs[i], rows[i], tries[i])
    requires Grouped(groups, legs, base, |legs|) && LadderShape(groups, tranches, t)
    ensures GoodBatch(t, base, tranches, rows)
  {
    forall r | 0 <= r < |tranches| ensures OwnsRange(tranches[r], base, |rows|) {
      if r < |groups| {
        assert AllWait(groups[r], legs, base, |legs|);
      }
    }
    forall r, q, i, j | 0 <= r < |tranches| && 0 <= q < |tranches| && 0 <= i < |tranches[r].legs|
        && 0 <= j < |tranches[q].legs| && tranches[r].legs[i] == tranches[q].legs[j]
      ensures r == q && i == j
    {
      LadderDisjoint(t, base, legs, groups, tranches, r, q, i, j);
    }
  }

  lemma LadderDisjoint(t: nat, base: nat, legs: seq<PlannedLeg>, groups: seq<Group>, tranches: seq<Tranche>,
                       r: nat, q: nat, i: nat, j: nat)
    requires Grouped(groups, legs, base, |legs|) && LadderShape(groups, tranches, t)
    requires r < |tranches| && q < |tranches| && i < |tranches[r].legs| && j < |tranches[q].legs|
    requires tranches[r].legs[i] == tranches[q].legs[j]
    ensures r == q && i == j
  {}

  /** Some tranche that waits for a level owns leg `id`. */
  ghost predicate OwnedWaiting(tranches: seq<Tranche>, id: nat) {
    exists r :: 0 <= r < |tranches| && tranches[r].state.Waiting? && id in tranches[r].legs
  }

  /** In a ladder exactly the held legs are owned by waiting tranches. */
  lemma HeldIsOwned(side: Side, t: nat, base: nat, legs: seq<PlannedLeg>, rows: seq<Leg>, tries: seq<nat>,
                    groups: seq<Group>, tranches: seq<Tranche>, i: nat)
    requires |rows| == |legs| == |tries| && i < |legs| && Outcome(side, t, legs[i], rows[i], tries[i])
    requires Grouped(groups, legs, base, |legs|) && LadderShape(groups, tranches, t)
    ensures rows[i].status.Staged? <==> OwnedWaiting(tranches, base + i)
  {}

  /** The first `k` legs went through placement, with these rows. */
  ghost predicate PlacedAs(side: Side, t: nat, legs: seq<PlannedLeg>, broker: seq<Replies>, now: int, rows: seq<Leg>,
                           tries: seq<nat>, k: nat)
    requires |broker| == |legs|
  {
    && |rows| == k == |tries| && k <= |legs|
    && (forall i :: 0 <= i < k ==> (rows[i] == RowOf(side, t, legs[i], broker[i], now)
                                    && Outcome(side, t, legs[i], rows[i], tries[i])))
  }

  lemma PlacedNext(side: Side, t: nat, legs: seq<PlannedLeg>, broker: seq<Replies>, now: int, rows: seq<Leg>,
                   tries: seq<nat>, k: nat)
    requires |broker| == |legs| && PlacedAs(side, t, legs, broker, now, rows, tries, k) && k < |legs|
    ensures var row := RowOf(side, t, legs[k], broker[k], now);
            var more, landed := rows + [row], FateOf(row.status).Landed?;
            && PlacedAs(side, t, legs, broker, now, more, tries + [TriesOf(side, legs[k], broker[k])], k + 1)
            && LotsBy(more, Landed) == LotsBy(rows, Landed) + (if landed then row.lot else 0.0)
            && |PlacedIds(more)| == |PlacedIds(rows)| + (if landed then 1 else 0)
  {
    var row := RowOf(side, t, legs[k], broker[k], now);
    RowOfMeans(side, t, legs[k], broker[k], now);
    PlacedOneMore(rows, row);
    assert (rows + [row])[..k] == rows;
  }

  /** Place the legs in order, counting what lands and grouping legs by the trigger they wait for. */
  method PlaceLegs(side: Side, t: nat, base: nat, legs: seq<PlannedLeg>, broker: seq<Replies>, now: int)
    returns (rows: seq<Leg>, tries: seq<nat>, groups: seq<Group>, placed: nat, placedLots: real)
    requires |broker| == |legs|
    ensures PlacedAs(side, t, legs, broker, now, rows, tries, |legs|) && Grouped(groups, legs, base, |legs|)
    ensures placedLots == LotsBy(rows, Landed) && placed == |PlacedIds(rows)|
  {
    rows, tries, groups, placed, placedLots := [], [], [], 0, 0.0;
    for k := 0 to |legs|
      invariant PlacedAs(side, t, legs, broker, now, rows, tries, k) && Grouped(groups, legs, base, k)
      invariant placedLots == LotsBy(rows, Landed) && placed == |PlacedIds(rows)|
    {
      var row, n := PlaceOne(side, t, legs[k], broker[k], now);
      PlacedNext(side, t, legs, broker, now, rows, tries, k);
      rows, tries := rows + [row], tries + [n];
      if FateOf(row.status).Landed? {
        placed, placedLots := placed + 1, placedLots + legs[k].lot;
      }
      if legs[k].tranche.Some? {
        groups := AddToGroup(groups, legs, base, k);
      } else {
        GroupSkipped(groups, legs, base, k);
      }
    }
  }

  /** Place the legs of trade `t` and build its tranches. `cancels` is None when the plan is not a ladder. */
  method FanOutLegs(side: Side, t: nat, base: nat, legs: seq<PlannedLeg>, broker: seq<Replies>,
                    cancels: Option<seq<CancelAt>>, now: int)
    returns (rows: seq<Leg>, tranches: seq<Tranche>, tries: seq<nat>, placed: nat, placedLots: real,
             ghost groups: seq<Group>)
    requires |broker| == |legs|
    ensures PlacedAs(side, t, legs, broker, now, rows, tries, |legs|)
    ensures placedLots == LotsBy(rows, Landed) && placed == |PlacedIds(rows)|
    ensures LotsBy(rows, Landed) + LotsBy(rows, Declined) + LotsBy(rows, Held) == PlannedLots(legs)
    ensures GoodBatch(t, base, tranches, rows)
    ensures cancels.Some? ==>
              forall i :: 0 <= i < |rows| ==> (rows[i].status.Staged? <==> OwnedWaiting(tranches, base + i))
    ensures Grouped(groups, legs, base, |legs|)
    ensures if cancels.None? then tranches == [] else LadderRows(groups, tranches, t, legs, cancels.value, now)
  {
    var grouped;
    rows, tries, grouped, placed, placedLots := PlaceLegs(side, t, base, legs, broker, now);
    groups := grouped;
    LotsConserved(legs, rows);
    tranches := [];
    if cancels.Some? {
      tranches := BuildTranches(t, legs, base, grouped, cancels.value, now);
      LadderShaped(groups, tranches, t, legs, cancels.value, now);
      forall i | 0 <= i < |rows| ensures rows[i].status.Staged? <==> OwnedWaiting(tranches, base + i) {
        HeldIsOwned(side, t, base, legs, rows, tries, groups, tranches, i);
      }
      LadderIsGood(side, t, base, legs, rows, tries, groups, tranches);
    }
  }

  ghost function PlacedIds(rows: seq<Leg>): set<int> {
    set i | 0 <= i < |rows| && FateOf(rows[i].status).Landed?
  }

  lemma PlacedOneMore(rows: seq<Leg>, row: Leg)
    ensures |PlacedIds(rows + [row])| == |PlacedIds(rows)| + if FateOf(row.status).Landed? then 1 else 0
  {
    assert PlacedIds(rows + [row]) == PlacedIds(rows) + if FateOf(row.status).Landed? then {|rows|} else {};
  }
}
