/**
 The monitor's reconciliation pass over one trade: broker positions, orders and transactions are
 matched to legs, and legs are linked, closed, expired or cancelled.
 */
module Reconcile {
  import opened Wrappers
  import opened Prices
  import opened Rows

  /** A live position. `direction` is how it prints; `onEpic` says it is on the trade's epic. */
  datatype Pos = Pos(ref: Ref, order: Option<Ref>, direction: string, onEpic: bool, openPx: Option<real>)

  /** A history row. `closes` says it records a close, `onEpic` that its instrument name matches. */
  datatype Txn = Txn(deal: Option<Ref>, pl: Option<real>, closes: bool, onEpic: bool)

  /** The two staged order-age brakes, in minutes; 0 is off. */
  datatype StagedCfg = StagedCfg(deployedTtl: nat, maxEntryAge: nat)

  /** What one tick read from the broker and the configuration, for one trade. Times are seconds. */
  datatype Snapshot = Snapshot(positions: seq<Pos>, orders: set<Ref>, txns: seq<Txn>, reasons: map<Ref, Outcome>,
                               price: real, minStop: Option<real>, valuePerPoint: real, now: int,
                               entryTtl: nat, staged: Option<StagedCfg>)

  /** One trade's reconciliation context; `late` are the legs of tranches the monitor deploys. */
  datatype Ctx = Ctx(side: Side, createdAt: int, late: set<nat>, snap: Snapshot)

  /** The pass in progress: the rows, the history rows consumed, and the positions claimed. */
  datatype Scan = Scan(legs: seq<Leg>, tranches: seq<Tranche>, used: set<nat>, linked: set<Ref>)

  // ---- lookups ---------------------------------------------------------------------------------

  predicate EndsWith(s: string, suffix: string) {
    |suffix| <= |s| && s[|s| - |suffix|..] == suffix
  }

  function SideName(side: Side): string { if side.Buy? then "BUY" else "SELL" }

  /** The position created from working order `order`; a later listing wins. */
  function FilledBy(positions: seq<Pos>, order: Option<Ref>): (p: Option<Pos>)
    ensures p.Some? ==> p.value in positions && order.Some? && p.value.order == order
    ensures p.None? && order.Some? ==> forall k :: 0 <= k < |positions| ==> positions[k].order != order
  {
    if positions == [] || order.None? then None
    else
      var last := positions[|positions| - 1];
      if last.order == order then Some(last) else FilledBy(positions[..|positions| - 1], order)
  }

  predicate Claimable(side: Side, linked: set<Ref>, p: Pos) {
    p.ref !in linked && p.onEpic && EndsWith(p.direction, SideName(side))
  }

  /** The fallback: the first listed position on this epic and direction that no open leg holds. */
  function Guess(side: Side, positions: seq<Pos>, linked: set<Ref>): (p: Option<Pos>)
    ensures p.Some? ==> p.value in positions && Claimable(side, linked, p.value)
    ensures p.None? ==> forall k :: 0 <= k < |positions| ==> !Claimable(side, linked, positions[k])
  {
    if positions == [] then None
    else if Claimable(side, linked, positions[0]) then Some(positions[0])
    else Guess(side, positions[1..], linked)
  }

  /** The first unconsumed closing row of exactly this position. */
  function TxnByDeal(txns: seq<Txn>, used: set<nat>, ref: Option<Ref>, from: nat := 0): (m: Option<nat>)
    requires from <= |txns|
    ensures m.Some? ==> m.value < |txns| && m.value !in used && ref.Some?
                        && txns[m.value].closes && txns[m.value].deal == ref
    ensures m.None? && ref.Some? ==>
              forall k :: from <= k < |txns| && k !in used && txns[k].closes ==> txns[k].deal != ref
    decreases |txns| - from
  {
    if ref.None? || from == |txns| then None
    else if from !in used && txns[from].closes && txns[from].deal == ref then Some(from)
    else TxnByDeal(txns, used, ref, from + 1)
  }

  /** The first unconsumed closing row on the instrument, whoever's it is. */
  function TxnByInstrument(txns: seq<Txn>, used: set<nat>, from: nat := 0): (m: Option<nat>)
    requires from <= |txns|
    ensures m.Some? ==> m.value < |txns| && m.value !in used && txns[m.value].closes && txns[m.value].onEpic
    decreases |txns| - from
  {
    if from == |txns| then None
    else if from !in used && txns[from].closes && txns[from].onEpic then Some(from)
    else TxnByInstrument(txns, used, from + 1)
  }

  // ---- closing one leg -------------------------------------------------------------------------

  /** A transaction settles a leg only when it names the leg's own position. */
  function Classify(m: Option<Txn>, ref: Option<Ref>): Basis {
    if m.Some? && ref.Some? && m.value.deal == ref then Exact
    else if m.Some? then Unattributed
    else Heuristic
  }

  function Tolerance(minStop: Option<real>, tp: real): real {
    var t := Or(minStop, Some(0.0)).value;
    if t != 0.0 then t else Abs(tp) * 0.001
  }

  /** Which history row, if any, the close is matched to. */
  function MatchTxn(snap: Snapshot, used: set<nat>, leg: Leg, exactOnly: bool): (m: Option<nat>)
    ensures m.Some? ==> m.value < |snap.txns| && m.value !in used && snap.txns[m.value].closes
    ensures m.Some? && leg.posRef.Some? ==> snap.txns[m.value].deal == leg.posRef
  {
    var exact := TxnByDeal(snap.txns, used, leg.posRef);
    if exact.None? && leg.posRef.None? && !exactOnly then TxnByInstrument(snap.txns, used) else exact
  }

  /** What a close writes, given the matched transaction. Money is taken only from an exact match. */
  function CloseOf(c: Ctx, leg: Leg, m: Option<Txn>): Close {
    var tol := Tolerance(c.snap.minStop, leg.tp);
    var entry := EntryBasis(leg.fill, leg.entry);
    var px := ClosePrice(c.side, c.snap.price, leg.tp, leg.sl, tol);
    var basis := Classify(m, leg.posRef);
    var settled := if basis.Exact? then m.value.pl else None;
    var reason := if leg.posRef.Some? && leg.posRef.value in c.snap.reasons
                  then Some(c.snap.reasons[leg.posRef.value]) else None;
    var outcome := CloseOutcome(reason, px, entry, leg.tp, leg.sl, leg.slMoved, tol, settled);
    var pl := match basis
              case Exact => if settled.Some? then Some(SignedClosePl(settled.value, outcome)) else None
              case Heuristic => Some(EstimatedPl(c.side, px, entry, leg.lot, c.snap.valuePerPoint))
              case _ => None;
    Close(px, outcome, pl, Some(basis))
  }

  function Settle(c: Ctx, leg: Leg, m: Option<Txn>): Leg {
    leg.(status := Closed, close := Some(CloseOf(c, leg, m)))
  }

  // ---- one leg ---------------------------------------------------------------------------------

  function DeployedTtl(cfg: StagedCfg, entryTtl: nat): nat {
    if cfg.deployedTtl > 0 then cfg.deployedTtl else entryTtl
  }

  predicate EntryAgeExceeded(cfg: StagedCfg, now: int, createdAt: int) {
    cfg.maxEntryAge > 0 && now - createdAt > 60 * cfg.maxEntryAge
  }

  /** A still-resting order must go: the entry's absolute ceiling first, else the leg's own TTL. */
  predicate Overdue(c: Ctx, i: nat, leg: Leg) {
    match c.snap.staged
    case None => c.snap.entryTtl > 0 && c.snap.now - leg.since > 60 * c.snap.entryTtl
    case Some(cfg) =>
      var ttl := if i in c.late then DeployedTtl(cfg, c.snap.entryTtl) else c.snap.entryTtl;
      EntryAgeExceeded(cfg, c.snap.now, c.createdAt) || (ttl > 0 && c.snap.now - leg.since > 60 * ttl)
  }

  /** Advance the tranche that owns leg `i` once the leg resolves; a resolved tranche stays put. */
  function ResolveOwner(tranches: seq<Tranche>, i: nat, state: TrancheState, now: int): (ts: seq<Tranche>)
    ensures |ts| == |tranches|
  {
    seq(|tranches|, r requires 0 <= r < |tranches| =>
      if i in tranches[r].legs && !Resolved(tranches[r].state)
      then tranches[r].(state := state, since := now) else tranches[r])
  }

  function Link(leg: Leg, p: Pos): Leg {
    leg.(posRef := Some(p.ref), status := Open,
         fill := if p.openPx.Some? && (leg.fill.None? || leg.fill == Some(0.0)) then p.openPx else leg.fill)
  }

  /** The position a leg that left the order book became, exact link first. */
  function LinkFor(c: Ctx, linked: set<Ref>, leg: Leg): (p: Option<Pos>)
    ensures p.Some? ==> p.value in c.snap.positions
    ensures p.Some? ==> (leg.orderRef.Some? && p.value.order == leg.orderRef) || p.value.ref !in linked
  {
    var exact := FilledBy(c.snap.positions, leg.orderRef);
    if exact.Some? then exact else Guess(c.side, c.snap.positions, linked)
  }

  function Row(c: Ctx, m: Option<nat>): Option<Txn> {
    if m.Some? && m.value < |c.snap.txns| then Some(c.snap.txns[m.value]) else None
  }

  function Use(used: set<nat>, m: Option<nat>): set<nat> {
    if m.Some? then used + {m.value} else used
  }

  predicate Resting(c: Ctx, leg: Leg) { leg.orderRef.Some? && leg.orderRef.value in c.snap.orders }

  predicate Gone(c: Ctx, leg: Leg) {
    leg.posRef.Some? && forall k :: 0 <= k < |c.snap.positions| ==> c.snap.positions[k].ref != leg.posRef.value
  }

  /** A working leg with no position behind it: closed on a transaction, or given up as `status`. */
  function CloseOrGiveUp(c: Ctx, s: Scan, i: nat, exactOnly: bool, status: LegStatus, state: TrancheState): Scan
    requires i < |s.legs|
  {
    var leg := s.legs[i];
    var m := MatchTxn(c.snap, s.used, leg, exactOnly);
    if m.Some?
    then s.(legs := s.legs[i := Settle(c, leg, Row(c, m))], used := Use(s.used, m),
            tranches := ResolveOwner(s.tranches, i, Filled, c.snap.now))
    else s.(legs := s.legs[i := leg.(status := status)],
            tranches := ResolveOwner(s.tranches, i, state, c.snap.now))
  }

  function VisitLeg(c: Ctx, s: Scan, i: nat): Scan
    requires i < |s.legs|
  {
    var leg := s.legs[i];
    if leg.status.Working? then
      if Resting(c, leg) then
        if Overdue(c, i, leg) then CloseOrGiveUp(c, s, i, true, Expired, TimedOut) else s
      else
        var p := LinkFor(c, s.linked, leg);
        if p.Some?
        then s.(legs := s.legs[i := Link(leg, p.value)], linked := s.linked + {p.value.ref},
                tranches := ResolveOwner(s.tranches, i, Filled, c.snap.now))
        else CloseOrGiveUp(c, s, i, false, Cancelled, Withdrawn)
    else if leg.status.Open? && Gone(c, leg) then
      var m := MatchTxn(c.snap, s.used, leg, false);
      s.(legs := s.legs[i := Settle(c, leg, Row(c, m))], used := Use(s.used, m))
    else s
  }

  predicate InRange(ids: seq<nat>, n: nat) { forall k :: 0 <= k < |ids| ==> ids[k] < n }

  /** The pass over the legs `ids`, in order. */
  function Visits(c: Ctx, s: Scan, ids: seq<nat>): (r: Scan)
    requires InRange(ids, |s.legs|)
    ensures |r.legs| == |s.legs| && |r.tranches| == |s.tranches|
  {
    if ids == [] then s else VisitLeg(c, Visits(c, s, ids[..|ids| - 1]), ids[|ids| - 1])
  }

  /** The pass after its first `k` visits. */
  function After(c: Ctx, s: Scan, ids: seq<nat>, k: nat): (t: Scan)
    requires InRange(ids, |s.legs|) && k <= |ids|
    ensures |t.legs| == |s.legs|
  {
    Visits(c, s, ids[..k])
  }

  lemma AfterNext(c: Ctx, s: Scan, ids: seq<nat>, k: nat)
    requires InRange(ids, |s.legs|) && k < |ids|
    ensures After(c, s, ids, k + 1) == VisitLeg(c, After(c, s, ids, k), ids[k])
  {
    assert ids[..k + 1][..k] == ids[..k];
  }

  /** Visiting leg `i` closes it, which is announced on the event bus. */
  predicate Closes(c: Ctx, s: Scan, i: nat)
    requires i < |s.legs|
  {
    !s.legs[i].status.Closed? && VisitLeg(c, s, i).legs[i].status.Closed?
  }

  /** The pass over `ids`; when it is `cut`, announcing the last close raises, and the tranche of the leg
      just closed is not advanced any more. */
  function Passed(c: Ctx, s: Scan, ids: seq<nat>, cut: bool): (r: Scan)
    requires InRange(ids, |s.legs|)
    ensures |r.legs| == |s.legs| && |r.tranches| == |s.tranches|
  {
    var r := Visits(c, s, ids);
    if cut && ids != [] then r.(tranches := Visits(c, s, ids[..|ids| - 1]).tranches) else r
  }

  /** The close of leg `ids[k]` cannot be announced. */
  predicate RaisesAt(c: Ctx, s: Scan, ids: seq<nat>, k: nat, mute: set<nat>)
    requires InRange(ids, |s.legs|) && k < |ids|
  {
    ids[k] in mute && Closes(c, After(c, s, ids, k), ids[k])
  }

  /** The pass makes `n` visits: all of them, or up to the first close that cannot be announced. */
  ghost predicate EndsAfter(c: Ctx, s: Scan, ids: seq<nat>, mute: set<nat>, n: nat, raised: bool)
    requires InRange(ids, |s.legs|)
  {
    && n <= |ids|
    && (if raised then n > 0 && RaisesAt(c, s, ids, n - 1, mute) else n == |ids|)
    && NoneRaises(c, s, ids, mute, if raised then n - 1 else n)
  }

  ghost predicate NoneRaises(c: Ctx, s: Scan, ids: seq<nat>, mute: set<nat>, n: nat)
    requires InRange(ids, |s.legs|) && n <= |ids|
  {
    forall k :: 0 <= k < n ==> !RaisesAt(c, s, ids, k, mute)
  }

  lemma NoneRaisesNext(c: Ctx, s: Scan, ids: seq<nat>, mute: set<nat>, n: nat)
    requires InRange(ids, |s.legs|) && n < |ids|
    ensures NoneRaises(c, s, ids, mute, n + 1) <==> NoneRaises(c, s, ids, mute, n) && !RaisesAt(c, s, ids, n, mute)
  {}

  /** The monitor's loop over the legs. `mute` are the legs whose close cannot be announced. */
  method Pass1(c: Ctx, start: Scan, ids: seq<nat>, mute: set<nat>)
    returns (legs: seq<Leg>, tranches: seq<Tranche>, n: nat, raised: bool)
    requires InRange(ids, |start.legs|)
    ensures EndsAfter(c, start, ids, mute, n, raised)
    ensures legs == Passed(c, start, ids[..n], raised).legs && tranches == Passed(c, start, ids[..n], raised).tranches
  {
    legs, tranches, raised := start.legs, start.tranches, false;
    var used, linked := start.used, start.linked;
    for k := 0 to |ids|
      invariant Scan(legs, tranches, used, linked) == After(c, start, ids, k)
      invariant NoneRaises(c, start, ids, mute, k)
    {
      AfterNext(c, start, ids, k);
      NoneRaisesNext(c, start, ids, mute, k);
      assert ids[..k + 1][..k] == ids[..k];
      var i := ids[k];
      var leg := legs[i];
      if leg.status.Working? {
        if Resting(c, leg) {
          if !Overdue(c, i, leg) {
            continue;
          }
          var m := MatchTxn(c.snap, used, leg, true);
          if m.None? {
            legs := legs[i := leg.(status := Expired)];
            tranches := ResolveOwner(tranches, i, TimedOut, c.snap.now);
          } else {
            legs, used := legs[i := Settle(c, leg, Row(c, m))], Use(used, m);
            if i in mute {
              return legs, tranches, k + 1, true;
            }
            tranches := ResolveOwner(tranches, i, Filled, c.snap.now);
          }
          continue;
        }
        var p := LinkFor(c, linked, leg);
        if p.Some? {
          legs, linked := legs[i := Link(leg, p.value)], linked + {p.value.ref};
          tranches := ResolveOwner(tranches, i, Filled, c.snap.now);
        } else {
          var m := MatchTxn(c.snap, used, leg, false);
          if m.None? {
            legs := legs[i := leg.(status := Cancelled)];
            tranches := ResolveOwner(tranches, i, Withdrawn, c.snap.now);
          } else {
            legs, used := legs[i := Settle(c, leg, Row(c, m))], Use(used, m);
            if i in mute {
              return legs, tranches, k + 1, true;
            }
            tranches := ResolveOwner(tranches, i, Filled, c.snap.now);
          }
        }
        continue;
      }
      if leg.status.Open? && Gone(c, leg) {
        var m := MatchTxn(c.snap, used, leg, false);
        legs, used := legs[i := Settle(c, leg, Row(c, m))], Use(used, m);
        if i in mute {
          return legs, tranches, k + 1, true;
        }
      }
    }
    n := |ids|;
  }
}
