/**
 One leg's stop over whole runs: what a tick makes of the stored rows is one step of the ratchet, a failed
 commit takes the step back, and everything else leaves the stop and what it depends on alone.
 */
module StopRuns {
  import opened Wrappers
  import opened Prices
  import opened StopRules
  import Ratchet
  import opened Rows
  import opened Reconcile
  import opened Links
  import opened Book
  import opened Invariants
  import opened Steps
  import opened Ladder
  import opened RollUps
  import opened TickRules

  // ---- what the rows say ---------------------------------------------------------------------------

  /** The latched price, the TPs closed on and the stop, as stored for leg `i` of trade `t`. */
  function TrackOf(d: Db, t: nat, i: nat): Ratchet.Track
    requires t < |d.trades| && i < |d.legs|
  {
    Ratchet.Track(d.trades[t].mfe, TpHits(d.legs, t), d.legs[i].sl)
  }

  /** Leg `i` of trade `t` has a known fill, and `plan` is its side, entry and TP levels. */
  ghost predicate Follows(d: Db, t: nat, i: nat, plan: Ratchet.Plan) {
    && t < |d.trades| && i < |d.legs| && d.legs[i].trade == t
    && d.trades[t].side == plan.side && TpLevels(d.legs, t) == plan.tps
    && d.legs[i].fill == Some(plan.entry) && plan.entry > 0.0 && !d.legs[i].status.Staged?
  }

  // ---- what leaves a trade's stops alone -----------------------------------------------------------

  /** The leg is not closed and its stop not moved; a known fill stays. */
  predicate Unturned(a: Leg, b: Leg) {
    && b.trade == a.trade && b.tpIndex == a.tpIndex && b.tp == a.tp && b.sl == a.sl
    && (a.status.Closed? || b.status.Closed? ==> b.status.Closed? && a.status.Closed? && b.close == a.close)
    && (b.status.Staged? ==> a.status.Staged?) && (KnownFill(a) && !a.status.Staged? ==> b.fill == a.fill)
  }

  predicate KnownFill(l: Leg) { l.fill.Some? && l.fill.value > 0.0 }

  ghost predicate KeepsTrade(a: Db, b: Db, t: nat) {
    && t < |a.trades| <= |b.trades| && |a.legs| <= |b.legs|
    && b.trades[t].mfe == a.trades[t].mfe && b.trades[t].side == a.trades[t].side
    && forall i :: 0 <= i < |b.legs| ==>
         if i < |a.legs| && a.legs[i].trade == t then Unturned(a.legs[i], b.legs[i]) else b.legs[i].trade != t
  }

  /** No trade's stops are touched. */
  ghost predicate Unmoved(a: Db, b: Db) {
    |a.trades| <= |b.trades| && |a.legs| <= |b.legs| && forall t :: 0 <= t < |a.trades| ==> KeepsTrade(a, b, t)
  }

  lemma {:induction false} SameLevels(a: seq<Leg>, b: seq<Leg>, t: nat)
    requires |a| <= |b|
    requires forall i :: 0 <= i < |b| ==>
               if i < |a| && a[i].trade == t then b[i].trade == t && b[i].tpIndex == a[i].tpIndex && b[i].tp == a[i].tp
               else b[i].trade != t
    ensures TpLevels(b, t) == TpLevels(a, t)
  {
    if b != [] {
      var n := |b| - 1;
      if |a| == |b| {
        SameLevels(a[..n], b[..n], t);
      } else {
        SameLevels(a, b[..n], t);
      }
    }
  }

  lemma KeepsTrack(a: Db, b: Db, t: nat, i: nat, plan: Ratchet.Plan)
    requires Follows(a, t, i, plan) && KeepsTrade(a, b, t)
    ensures Follows(b, t, i, plan) && TrackOf(b, t, i) == TrackOf(a, t, i)
  {
    SameLevels(a.legs, b.legs, t);
    assert Unturned(a.legs[i], b.legs[i]);
    assert TpHits(b.legs, t) == TpHits(a.legs, t);
  }

  // ---- what a tick does to them --------------------------------------------------------------------

  /** The pass moves no stop and keeps a known fill. */
  lemma VisitKeepsStop(c: Ctx, s: Scan, i: nat, j: nat)
    requires i < |s.legs| && j < |s.legs|
    ensures var l := VisitLeg(c, s, i).legs[j];
            l.sl == s.legs[j].sl && (KnownFill(s.legs[j]) ==> l.fill == s.legs[j].fill)
  {}

  lemma {:induction false} PassKeepsStop(c: Ctx, s: Scan, ids: seq<nat>, j: nat)
    requires InRange(ids, |s.legs|) && j < |s.legs|
    ensures var l := Visits(c, s, ids).legs[j];
            l.sl == s.legs[j].sl && (KnownFill(s.legs[j]) ==> l.fill == s.legs[j].fill)
  {
    if ids != [] {
      PassKeepsStop(c, s, ids[..|ids| - 1], j);
      VisitKeepsStop(c, Visits(c, s, ids[..|ids| - 1]), ids[|ids| - 1], j);
    }
  }

  /** What a pass keeps of trade `t`: its levels, the TPs closed on, and leg `i`'s stop and known fill. */
  lemma PassFollows(d: Db, e: Db, t: nat, snap: Snapshot, ids: seq<nat>, cut: bool, i: nat, plan: Ratchet.Plan)
    requires Follows(d, t, i, plan) && LegsOk(d.legs) && LegsOfTrade(d, t, ids) && e == Reconciled(d, t, snap, ids, cut)
    ensures Follows(e, t, i, plan) && e.legs[i].sl == d.legs[i].sl && e.trades == d.trades
    ensures TpHits(d.legs, t) <= TpHits(e.legs, t)
  {
    var c, s := CtxFor(d, t, snap), ScanOf(d);
    forall j | 0 <= j < |d.legs| ensures LegEvolves(c.side, d.legs[j], e.legs[j]) {
      PassEvolves(c, s, ids, j);
    }
    PassKeepsStop(c, s, ids, i);
    SameLevels(d.legs, e.legs, t);
  }

  /** Leg `i` could be moved on this tick: it is open on a listed position the broker lets be modified. */
  predicate Movable(e: Db, i: nat, v: View, ids: seq<nat>) {
    && i in ids && i < |e.legs| && e.legs[i].status.Open? && LivePos(v.snap.positions, e.legs[i].posRef).Some?
    && e.legs[i].posRef.value in v.broker.moves
  }

  /** What the tick that made `e` brought, for leg `i` of trade `t`. */
  function PollOf(e: Db, t: nat, i: nat, v: View, price: real, ids: seq<nat>, whole: bool): Ratchet.Poll {
    Ratchet.Poll(price, Shift(v.hi, -HalfSpread(v.quote)), Shift(v.lo, HalfSpread(v.quote)), TpHits(e.legs, t),
                 whole && Movable(e, i, v, ids))
  }

  /** The ratchet on one leg, once the pass is over. */
  lemma RatchetsLeg(side: Side, v: View, price: real, plan: Ratchet.Plan, track: Ratchet.Track, poll: Ratchet.Poll,
                    hits: set<int>, a: Leg, movable: bool)
    requires a.fill == Some(plan.entry) && plan.entry > 0.0 && plan.side == side && track.sl == a.sl
    requires plan.rules == v.rules && plan.initialSl == v.initialSl
    requires poll.price == price && hits == Ratchet.HitAfter(plan, track, poll) && poll.modified == movable
    requires movable <==>
      a.status.Open? && LivePos(v.snap.positions, a.posRef).Some? && a.posRef.value in v.broker.moves
    ensures var b := Ratcheted(side, v, price, plan.tps, hits, a);
            b.sl == Ratchet.Tick(plan, track, poll).sl && b == a.(sl := b.sl, slMoved := b.slMoved)
  {}

  lemma MovedHits(d: Db, t: nat, ids: seq<nat>, v: View, price: real, tps: map<int, real>, hits: set<int>)
    requires t < |d.trades|
    ensures TpHits(StopsMoved(d, t, ids, v, price, tps, hits).legs, t) == TpHits(d.legs, t)
    ensures TpLevels(StopsMoved(d, t, ids, v, price, tps, hits).legs, t) == TpLevels(d.legs, t)
  {
    SameLevelsSet(d.legs, StopsMoved(d, t, ids, v, price, tps, hits).legs, t);
  }

  lemma {:induction false} SameLevelsSet(a: seq<Leg>, b: seq<Leg>, t: nat)
    requires |a| == |b| && forall i :: 0 <= i < |b| ==>
               (b[i].trade == a[i].trade && b[i].tpIndex == a[i].tpIndex && b[i].tp == a[i].tp
                && b[i].status == a[i].status && b[i].close == a[i].close)
    ensures TpLevels(b, t) == TpLevels(a, t) && TpHits(b, t) == TpHits(a, t)
  {
    if b != [] {
      SameLevelsSet(a[..|a| - 1], b[..|b| - 1], t);
    }
  }

  /** The ratchet over the trade, once the pass is over; `before` is what the rows said before the tick. */
  lemma MovedIsTick(r: Db, e: Db, t: nat, v: View, price: real, ids: seq<nat>, i: nat, plan: Ratchet.Plan,
                    before: Ratchet.Track, mfe: real)
    requires Follows(r, t, i, plan) && plan.rules == v.rules && plan.initialSl == v.initialSl
    requires r.trades[t].mfe == Some(mfe) && mfe == TickMfe(plan.side, before.mfe, price, v.hi, v.lo, v.quote)
    requires before.sl == r.legs[i].sl && before.achieved <= TpHits(r.legs, t)
    requires e == StopsMoved(r, t, ids, v, price, plan.tps, HitsOf(r, t, plan.side, mfe))
    ensures Follows(e, t, i, plan)
    ensures TrackOf(e, t, i) == Ratchet.Tick(plan, before, PollOf(e, t, i, v, price, ids, true))
  {
    var hits, poll := HitsOf(r, t, plan.side, mfe), PollOf(e, t, i, v, price, ids, true);
    MovedHits(r, t, ids, v, price, plan.tps, hits);
    assert hits == Ratchet.HitAfter(plan, before, poll);
    if i in ids {
      RatchetsLeg(plan.side, v, price, plan, before, poll, hits, r.legs[i], Movable(e, i, v, ids));
    }
  }

  // ---- ticks, with other trades inserted meanwhile -------------------------------------------------

  /** `b` is `a` with the rows of new trades appended: what the executor commits, at any moment of a tick. */
  ghost predicate Gains(a: Db, b: Db) {
    && a.trades <= b.trades && a.tranches <= b.tranches && a.legs <= b.legs
    && forall i :: |a.legs| <= i < |b.legs| ==> b.legs[i].trade >= |a.trades| && LegOk(b.legs[i])
  }

  lemma GainsNothing(d: Db)
    ensures Gains(d, d)
  {}

  lemma GainsMore(a: Db, b: Db, c: Db)
    requires Gains(a, b) && Gains(b, c)
    ensures Gains(a, c)
  {}

  lemma GainsKeeps(a: Db, b: Db, t: nat)
    requires Gains(a, b) && t < |a.trades|
    ensures KeepsTrade(a, b, t)
  {}

  /** `l` is `a` with the tick's price latched, and perhaps more trades. */
  ghost predicate LatchedAmid(a: Db, l: Db, t: nat, v: View, price: real)
    requires t < |a.trades|
  {
    Gains(Latched(a, t, MfeOf(a, t, v, price)), l)
  }

  /** A whole tick of trade `t`. What the executor inserts before the pass takes part in it, because the
      positions of every trade's open legs count as claimed. */
  ghost predicate ReviewedAmid(a: Db, b: Db, t: nat, v: View, price: real, ids: seq<nat>, staged: bool)
    requires t < |a.trades| && LegsOfTrade(a, t, ids)
  {
    exists l: Db ::
      LatchedAmid(a, l, t, v, price) && ReviewEnds(l, b, t, v, price, ids, staged, MfeOf(a, t, v, price))
  }

  ghost predicate ReviewEnds(l: Db, b: Db, t: nat, v: View, price: real, ids: seq<nat>, staged: bool, mfe: real) {
    t < |l.trades| && LegsOfTrade(l, t, ids) && Gains(ReviewedFrom(l, t, v, price, ids, staged, mfe), b)
  }

  /** A tick that an exception broke off, likewise. */
  ghost predicate BrokenAmid(a: Db, b: Db, t: nat, v: View, price: real, ids: seq<nat>, staged: bool)
    requires t < |a.trades| && LegsOfTrade(a, t, ids)
  {
    exists l: Db, n: nat, cut: bool ::
      LatchedAmid(a, l, t, v, price) && CutAt(l, t, SnapOf(v, price, staged), ids, v.mute, n, cut)
      && Gains(Reconciled(l, t, SnapOf(v, price, staged), ids[..n], cut), b)
  }

  ghost predicate CutAt(l: Db, t: nat, snap: Snapshot, ids: seq<nat>, mute: set<nat>, n: nat, cut: bool) {
    t < |l.trades| && LegsOfTrade(l, t, ids) && EndsAfter(CtxFor(l, t, snap), ScanOf(l), ids, mute, n, cut)
  }

  /** `before` is what the rows said before the price was latched in `l`. */
  ghost predicate Latches(l: Db, t: nat, i: nat, plan: Ratchet.Plan, v: View, price: real, before: Ratchet.Track,
                          mfe: real)
  {
    && Follows(l, t, i, plan) && LegsOk(l.legs) && l.trades[t].mfe == Some(mfe)
    && mfe == TickMfe(plan.side, before.mfe, price, v.hi, v.lo, v.quote)
    && before.sl == l.legs[i].sl && before.achieved == TpHits(l.legs, t)
  }

  lemma LatchFollows(d: Db, l: Db, t: nat, v: View, price: real, i: nat, plan: Ratchet.Plan)
    requires Follows(d, t, i, plan) && LegsOk(d.legs) && LatchedAmid(d, l, t, v, price)
    ensures Latches(l, t, i, plan, v, price, TrackOf(d, t, i), MfeOf(d, t, v, price))
  {
    var e := Latched(d, t, MfeOf(d, t, v, price));
    GainsKeeps(e, l, t);
    KeepsTrack(e, l, t, i, plan);
  }

  /** More trades change nothing of what the tick says of this one. */
  lemma GainsTrack(m: Db, e: Db, t: nat, i: nat, plan: Ratchet.Plan, v: View, price: real, ids: seq<nat>, whole: bool)
    requires Follows(m, t, i, plan) && Gains(m, e)
    ensures Follows(e, t, i, plan) && TrackOf(e, t, i) == TrackOf(m, t, i)
    ensures PollOf(e, t, i, v, price, ids, whole) == PollOf(m, t, i, v, price, ids, whole)
  {
    GainsKeeps(m, e, t);
    KeepsTrack(m, e, t, i, plan);
  }

  lemma ReviewedTicks(l: Db, e: Db, t: nat, v: View, price: real, ids: seq<nat>, staged: bool, i: nat,
                      plan: Ratchet.Plan, before: Ratchet.Track, mfe: real)
    requires plan.rules == v.rules && plan.initialSl == v.initialSl
    requires Latches(l, t, i, plan, v, price, before, mfe) && ReviewEnds(l, e, t, v, price, ids, staged, mfe)
    ensures Follows(e, t, i, plan)
    ensures TrackOf(e, t, i) == Ratchet.Tick(plan, before, PollOf(e, t, i, v, price, ids, true))
  {
    var r, m := Reconciled(l, t, SnapOf(v, price, staged), ids, false), ReviewedFrom(l, t, v, price, ids, staged, mfe);
    PassFollows(l, r, t, SnapOf(v, price, staged), ids, false, i, plan);
    MovedIsTick(r, m, t, v, price, ids, i, plan, before, mfe);
    GainsTrack(m, e, t, i, plan, v, price, ids, true);
  }

  lemma CutTicks(l: Db, m: Db, e: Db, t: nat, v: View, price: real, ids: seq<nat>, done: seq<nat>, staged: bool,
                 cut: bool, i: nat, plan: Ratchet.Plan, before: Ratchet.Track, mfe: real)
    requires Latches(l, t, i, plan, v, price, before, mfe) && LegsOfTrade(l, t, done)
    requires m == Reconciled(l, t, SnapOf(v, price, staged), done, cut) && Gains(m, e)
    ensures Follows(e, t, i, plan)
    ensures TrackOf(e, t, i) == Ratchet.Tick(plan, before, PollOf(e, t, i, v, price, ids, false))
  {
    PassFollows(l, m, t, SnapOf(v, price, staged), done, cut, i, plan);
    GainsTrack(m, e, t, i, plan, v, price, ids, false);
  }

  /** Simulation: whatever becomes of leg `i` in the tick, and whatever is inserted meanwhile, what the rows
      then say of it is one ratchet step from what they said before. */
  lemma ReviewIsTick(d: Db, e: Db, t: nat, v: View, price: real, ids: seq<nat>, staged: bool, i: nat,
                     plan: Ratchet.Plan)
    requires Follows(d, t, i, plan) && LegsOk(d.legs) && LegsOfTrade(d, t, ids)
    requires plan.rules == v.rules && plan.initialSl == v.initialSl && ReviewedAmid(d, e, t, v, price, ids, staged)
    ensures Follows(e, t, i, plan)
    ensures TrackOf(e, t, i) == Ratchet.Tick(plan, TrackOf(d, t, i), PollOf(e, t, i, v, price, ids, true))
  {
    var mfe := MfeOf(d, t, v, price);
    var l: Db :| LatchedAmid(d, l, t, v, price) && ReviewEnds(l, e, t, v, price, ids, staged, mfe);
    LatchFollows(d, l, t, v, price, i, plan);
    ReviewedTicks(l, e, t, v, price, ids, staged, i, plan, TrackOf(d, t, i), mfe);
  }

  /** So is a tick that an exception broke off, with no stop moved. */
  lemma BrokenIsTick(d: Db, e: Db, t: nat, v: View, price: real, ids: seq<nat>, staged: bool, i: nat,
                     plan: Ratchet.Plan)
    requires Follows(d, t, i, plan) && LegsOk(d.legs) && LegsOfTrade(d, t, ids)
    requires BrokenAmid(d, e, t, v, price, ids, staged)
    ensures Follows(e, t, i, plan)
    ensures TrackOf(e, t, i) == Ratchet.Tick(plan, TrackOf(d, t, i), PollOf(e, t, i, v, price, ids, false))
  {
    var snap := SnapOf(v, price, staged);
    var l: Db, n: nat, cut: bool :| LatchedAmid(d, l, t, v, price) && CutAt(l, t, snap, ids, v.mute, n, cut)
                                    && Gains(Reconciled(l, t, snap, ids[..n], cut), e);
    LatchFollows(d, l, t, v, price, i, plan);
    var m := Reconciled(l, t, snap, ids[..n], cut);
    CutTicks(l, m, e, t, v, price, ids, ids[..n], staged, cut, i, plan, TrackOf(d, t, i), MfeOf(d, t, v, price));
  }

  // ---- acts ----------------------------------------------------------------------------------------

  /** What can happen to a trade's stops between two worlds: nothing, a commit, a rollback, a tick of a
      trade, or a tick that an exception broke off. */
  datatype Act =
    | Rest
    | Save
    | Undo
    | Review(t: nat, v: View, price: real, ids: seq<nat>, staged: bool)
    | Break(t: nat, v: View, price: real, ids: seq<nat>, staged: bool)

  ghost predicate Acts(act: Act, a: World, b: World) {
    match act
    case Rest => Unmoved(a.db, b.db) && Unmoved(a.ses, b.ses)
    case Save => Unmoved(a.ses, b.db) && Unmoved(a.ses, b.ses)
    case Undo => Unmoved(a.db, b.db) && Unmoved(a.db, b.ses)
    case Review(t, v, price, ids, staged) =>
      Gains(a.db, b.db) && t < |a.ses.trades| && LegsOfTrade(a.ses, t, ids)
      && ReviewedAmid(a.ses, b.ses, t, v, price, ids, staged)
    case Break(t, v, price, ids, staged) =>
      Gains(a.db, b.db) && t < |a.ses.trades| && LegsOfTrade(a.ses, t, ids)
      && BrokenAmid(a.ses, b.ses, t, v, price, ids, staged)
  }

  lemma UnmovedReflexive(d: Db)
    ensures Unmoved(d, d)
  {}

  /** A tick in which the executor inserts nothing. */
  lemma ReviewActs(a: World, b: World, t: nat, v: View, price: real, ids: seq<nat>, staged: bool)
    requires t < |a.ses.trades| && LegsOfTrade(a.ses, t, ids) && b.db == a.db
    requires b.ses == Reviewed(a.ses, t, v, price, ids, staged)
    ensures Acts(Review(t, v, price, ids, staged), a, b)
  {
    var l := Latched(a.ses, t, MfeOf(a.ses, t, v, price));
    GainsNothing(a.db);
    GainsNothing(l);
    GainsNothing(b.ses);
    assert LatchedAmid(a.ses, l, t, v, price);
  }

  lemma BreakActs(a: World, b: World, t: nat, v: View, price: real, ids: seq<nat>, staged: bool)
    requires t < |a.ses.trades| && LegsOfTrade(a.ses, t, ids) && b.db == a.db
    requires BrokenOff(a.ses, b.ses, t, v, price, ids, staged)
    ensures Acts(Break(t, v, price, ids, staged), a, b)
  {
    var l, snap := Latched(a.ses, t, MfeOf(a.ses, t, v, price)), SnapOf(v, price, staged);
    var n: nat, cut: bool :| EndsAfter(CtxFor(l, t, snap), ScanOf(l), ids, v.mute, n, cut)
                             && b.ses == Reconciled(l, t, snap, ids[..n], cut);
    GainsNothing(a.db);
    GainsNothing(l);
    GainsNothing(b.ses);
    assert LatchedAmid(a.ses, l, t, v, price) && CutAt(l, t, snap, ids, v.mute, n, cut);
  }

  /** A tick of another trade. */
  lemma PassKeepsOthers(d: Db, e: Db, u: nat, snap: Snapshot, ids: seq<nat>, cut: bool, t: nat)
    requires u != t && t < |d.trades| && u < |d.trades| && LegsOk(d.legs) && LegsOfTrade(d, u, ids)
    requires e == Reconciled(d, u, snap, ids, cut)
    ensures KeepsTrade(d, e, t)
    ensures forall i :: 0 <= i < |d.legs| ==> e.legs[i].trade == d.legs[i].trade
  {
    forall j | 0 <= j < |d.legs|
      ensures e.legs[j].trade == d.legs[j].trade && (d.legs[j].trade == t ==> e.legs[j] == d.legs[j])
    {
      PassEvolves(CtxFor(d, u, snap), ScanOf(d), ids, j);
    }
  }

  lemma KeepsTwice(a: Db, b: Db, c: Db, t: nat)
    requires KeepsTrade(a, b, t) && KeepsTrade(b, c, t)
    ensures KeepsTrade(a, c, t)
  {}

  lemma LatchKeepsOthers(d: Db, l: Db, u: nat, v: View, price: real, t: nat)
    requires u != t && t < |d.trades| && u < |d.trades| && LegsOk(d.legs) && LatchedAmid(d, l, u, v, price)
    ensures KeepsTrade(d, l, t) && LegsOk(l.legs)
  {}

  lemma StopsKeepOthers(r: Db, u: nat, ids: seq<nat>, v: View, price: real, mfe: real, t: nat)
    requires u != t && t < |r.trades| && u < |r.trades| && LegsOfTrade(r, u, ids)
    ensures KeepsTrade(r, StopsOf(r, u, ids, v, price, mfe), t)
  {}

  lemma ReviewKeepsOthers(d: Db, e: Db, u: nat, v: View, price: real, ids: seq<nat>, staged: bool, t: nat)
    requires u != t && t < |d.trades| && u < |d.trades| && LegsOk(d.legs) && LegsOfTrade(d, u, ids)
    requires ReviewedAmid(d, e, u, v, price, ids, staged)
    ensures KeepsTrade(d, e, t)
  {
    var mfe, snap := MfeOf(d, u, v, price), SnapOf(v, price, staged);
    var l: Db :| LatchedAmid(d, l, u, v, price) && ReviewEnds(l, e, u, v, price, ids, staged, mfe);
    LatchKeepsOthers(d, l, u, v, price, t);
    var r := Reconciled(l, u, snap, ids, false);
    PassKeepsOthers(l, r, u, snap, ids, false, t);
    StopsKeepOthers(r, u, ids, v, price, mfe, t);
    var m := StopsOf(r, u, ids, v, price, mfe);
    GainsKeeps(m, e, t);
    KeepsTwice(d, l, r, t);
    KeepsTwice(d, r, m, t);
    KeepsTwice(d, m, e, t);
  }

  lemma BreakKeepsOthers(d: Db, e: Db, u: nat, v: View, price: real, ids: seq<nat>, staged: bool, t: nat)
    requires u != t && t < |d.trades| && u < |d.trades| && LegsOk(d.legs) && LegsOfTrade(d, u, ids)
    requires BrokenAmid(d, e, u, v, price, ids, staged)
    ensures KeepsTrade(d, e, t)
  {
    var snap := SnapOf(v, price, staged);
    var l: Db, n: nat, cut: bool :| LatchedAmid(d, l, u, v, price) && CutAt(l, u, snap, ids, v.mute, n, cut)
                                    && Gains(Reconciled(l, u, snap, ids[..n], cut), e);
    LatchKeepsOthers(d, l, u, v, price, t);
    var r := Reconciled(l, u, snap, ids[..n], cut);
    PassKeepsOthers(l, r, u, snap, ids[..n], cut, t);
    GainsKeeps(r, e, t);
    KeepsTwice(d, l, r, t);
    KeepsTwice(d, r, e, t);
  }

  // ---- the order book's events ---------------------------------------------------------------------

  /** An event outside a tick's pass and edits. */
  function ActOf(e: Event): Act {
    if RollsBack(e) then Undo else if Keeps(e) then Save else Rest
  }

  /** Placing leg `i`, or giving it up, turns no stop. */
  lemma LegUnmoved(d: Db, i: nat, leg: Leg)
    requires i < |d.legs| && Unturned(d.legs[i], leg)
    ensures Unmoved(d, SetLeg(d, i, leg))
  {}

  lemma TradeUnmoved(d: Db, t: nat, tr: Trade)
    requires t < |d.trades| && tr.mfe == d.trades[t].mfe && tr.side == d.trades[t].side
    ensures Unmoved(d, d.(trades := d.trades[t := tr]))
  {}

  lemma RowsUnmoved(a: Db, b: Db)
    requires SameRows(b, a)
    ensures Unmoved(a, b)
  {}

  lemma AppendUnmoved(d: Db, trade: Trade, tranches: seq<Tranche>, legs: seq<Leg>)
    requires GoodBatch(|d.trades|, |d.legs|, tranches, legs)
    ensures Unmoved(d, Append(d, trade, tranches, legs))
  {}

  /** Every event but a pass is a commit, a rollback or rest, if its edit moves no stop. */
  lemma EventActs(cfg: RiskCfg, w: World, v: World, e: Event)
    requires Inv(cfg, w) && Step(cfg, w, v, e) && !e.Pass? && (e.Edit? ==> Unmoved(w.ses, v.ses))
    ensures Acts(ActOf(e), w, v)
  {
    UnmovedReflexive(w.db);
    UnmovedReflexive(w.ses);
    if EditsSession(e) {
      EditActs(cfg, w, v, e);
    } else {
      OtherEvents(cfg, w, v, e);
      if e.HandOver? {
        AppendUnmoved(w.db, w.draft.value, e.tranches, e.legs);
        AppendUnmoved(w.ses, w.draft.value, e.tranches, e.legs);
      } else if Keeps(e) {
        RowsUnmoved(w.ses, v.db);
        RowsUnmoved(w.ses, v.ses);
      }
    }
  }

  lemma EditActs(cfg: RiskCfg, w: World, v: World, e: Event)
    requires Inv(cfg, w) && Step(cfg, w, v, e) && EditsSession(e) && !e.Pass? && (e.Edit? ==> Unmoved(w.ses, v.ses))
    ensures v.db == w.db && Unmoved(w.ses, v.ses)
  {
    match e
    case RollUp(t) => TradeUnmoved(w.ses, t, RolledUp(w.ses, t).trades[t]);
    case CloseIdle(t) => TradeUnmoved(w.ses, t, w.ses.trades[t].(status := Done));
    case Place(reply, now) =>
      var i := w.drive.todo[0];
      LegUnmoved(w.ses, i, PlacedLeg(w.ses.legs[i], reply, now));
    case Finish(state, now) => RowsUnmoved(w.ses, v.ses);
    case Edit(_, _) =>
  }

  // ---- a run cut into acts -------------------------------------------------------------------------

  /** The run, from world `cuts[0]` on, cut into acts. */
  ghost predicate Chart(ws: seq<World>, cuts: seq<nat>, acts: seq<Act>) {
    && |cuts| == |acts| + 1 && (forall k :: 0 <= k < |cuts| ==> cuts[k] < |ws|)
    && forall k :: 0 <= k < |acts| ==> ActAt(ws, cuts, acts, k)
  }

  ghost predicate ActAt(ws: seq<World>, cuts: seq<nat>, acts: seq<Act>, k: nat)
    requires |cuts| == |acts| + 1 && k < |acts| && cuts[k] < |ws| && cuts[k + 1] < |ws|
  {
    cuts[k] <= cuts[k + 1] && Acts(acts[k], ws[cuts[k]], ws[cuts[k + 1]])
  }

  /** The whole run so far is cut. */
  ghost predicate Charts(ws: seq<World>, cuts: seq<nat>, acts: seq<Act>) {
    Chart(ws, cuts, acts) && cuts[|acts|] == |ws| - 1
  }

  lemma ChartGrows(ws: seq<World>, cuts: seq<nat>, acts: seq<Act>, more: seq<World>, act: Act, w: World, v: World)
    requires Acts(act, w, v) && Charts(ws, cuts, acts) && ws <= more && w == ws[|ws| - 1] && v == more[|more| - 1]
    ensures Charts(more, cuts + [|more| - 1], acts + [act])
  {
    var c, a := cuts + [|more| - 1], acts + [act];
    forall k | 0 <= k < |a| ensures ActAt(more, c, a, k) {
      if k < |acts| {
        assert ActAt(ws, cuts, acts, k);
      }
    }
  }

  /** The ticks of a trade whose effect is in the tables, and in the session. */
  datatype Polls = Polls(saved: seq<Ratchet.Poll>, live: seq<Ratchet.Poll>)

  function NextPolls(p: Polls, act: Act, e: Db, t: nat, i: nat): Polls {
    match act
    case Rest => p
    case Save => Polls(p.live, p.live)
    case Undo => Polls(p.saved, p.saved)
    case Review(u, v, price, ids, _) =>
      if u == t then p.(live := p.live + [PollOf(e, t, i, v, price, ids, true)]) else p
    case Break(u, v, price, ids, _) =>
      if u == t then p.(live := p.live + [PollOf(e, t, i, v, price, ids, false)]) else p
  }

  /** From cut `a` to cut `k`: a tick counts as live until a rollback takes it back, and as saved once a
      commit keeps it. */
  ghost function PollsOf(ws: seq<World>, cuts: seq<nat>, acts: seq<Act>, a: nat, k: nat, t: nat, i: nat): Polls
    requires Chart(ws, cuts, acts) && a <= k <= |acts|
    decreases k
  {
    if k == a then Polls([], [])
    else NextPolls(PollsOf(ws, cuts, acts, a, k - 1, t, i), acts[k - 1], ws[cuts[k]].ses, t, i)
  }

  /** Both stores are where the ratchet gets from `start` by their ticks. */
  ghost predicate Tracked(w: World, t: nat, i: nat, plan: Ratchet.Plan, start: Ratchet.Track, p: Polls) {
    && Follows(w.db, t, i, plan) && Follows(w.ses, t, i, plan)
    && TrackOf(w.db, t, i) == Ratchet.Ticks(plan, start, p.saved)
    && TrackOf(w.ses, t, i) == Ratchet.Ticks(plan, start, p.live)
  }

  predicate OnPlan(act: Act, t: nat, plan: Ratchet.Plan) {
    (act.Review? || act.Break?) && act.t == t ==> act.v.rules == plan.rules && act.v.initialSl == plan.initialSl
  }

  lemma TicksOne(plan: Ratchet.Plan, start: Ratchet.Track, polls: seq<Ratchet.Poll>, poll: Ratchet.Poll)
    ensures Ratchet.Ticks(plan, start, polls + [poll]) == Ratchet.Tick(plan, Ratchet.Ticks(plan, start, polls), poll)
  {
    assert (polls + [poll])[..|polls|] == polls;
  }

  lemma ActTracks(w: World, v: World, act: Act, t: nat, i: nat, plan: Ratchet.Plan, start: Ratchet.Track, p: Polls)
    requires Tracked(w, t, i, plan, start, p) && Acts(act, w, v) && LegsOk(w.ses.legs) && OnPlan(act, t, plan)
    ensures Tracked(v, t, i, plan, start, NextPolls(p, act, v.ses, t, i))
  {
    match act
    case Rest =>
      KeepsTrack(w.db, v.db, t, i, plan);
      KeepsTrack(w.ses, v.ses, t, i, plan);
    case Save =>
      KeepsTrack(w.ses, v.db, t, i, plan);
      KeepsTrack(w.ses, v.ses, t, i, plan);
    case Undo =>
      KeepsTrack(w.db, v.db, t, i, plan);
      KeepsTrack(w.db, v.ses, t, i, plan);
    case Review(u, view, price, ids, staged) =>
      GainsTrack(w.db, v.db, t, i, plan, view, price, ids, true);
      if u == t {
        ReviewIsTick(w.ses, v.ses, t, view, price, ids, staged, i, plan);
        TicksOne(plan, start, p.live, PollOf(v.ses, t, i, view, price, ids, true));
      } else {
        ReviewKeepsOthers(w.ses, v.ses, u, view, price, ids, staged, t);
        KeepsTrack(w.ses, v.ses, t, i, plan);
      }
    case Break(u, view, price, ids, staged) =>
      GainsTrack(w.db, v.db, t, i, plan, view, price, ids, true);
      if u == t {
        BrokenIsTick(w.ses, v.ses, t, view, price, ids, staged, i, plan);
        TicksOne(plan, start, p.live, PollOf(v.ses, t, i, view, price, ids, false));
      } else {
        BreakKeepsOthers(w.ses, v.ses, u, view, price, ids, staged, t);
        KeepsTrack(w.ses, v.ses, t, i, plan);
      }
  }

  /** Leg `i` of trade `t` at cut `a`: tables and session agree on it, its fill is known, and the rules stay
      as `plan` has them until cut `k`. */
  ghost predicate Starts(ws: seq<World>, cuts: seq<nat>, acts: seq<Act>, a: nat, k: nat, t: nat, i: nat,
                         plan: Ratchet.Plan)
    requires Chart(ws, cuts, acts) && a <= k <= |acts|
  {
    var w := ws[cuts[a]];
    && Follows(w.db, t, i, plan) && Follows(w.ses, t, i, plan) && TrackOf(w.db, t, i) == TrackOf(w.ses, t, i)
    && forall m :: a <= m < k ==> OnPlan(acts[m], t, plan)
  }

  lemma NextTracks(cfg: RiskCfg, ws: seq<World>, es: seq<Event>, cuts: seq<nat>, acts: seq<Act>, k: nat,
                   t: nat, i: nat, plan: Ratchet.Plan, start: Ratchet.Track, p: Polls)
    requires Run(cfg, ws, es) && Chart(ws, cuts, acts) && 0 < k <= |acts| && OnPlan(acts[k - 1], t, plan)
    requires Tracked(ws[cuts[k - 1]], t, i, plan, start, p)
    ensures Tracked(ws[cuts[k]], t, i, plan, start, NextPolls(p, acts[k - 1], ws[cuts[k]].ses, t, i))
  {
    assert ActAt(ws, cuts, acts, k - 1);
    RunKeeps(cfg, ws, es, cuts[k - 1]);
    ActTracks(ws[cuts[k - 1]], ws[cuts[k]], acts[k - 1], t, i, plan, start, p);
  }

  /** Over every run cut into acts, what tables and session say of a leg is what the ratchet makes of the
      trade's ticks: of those that became durable, and of those the session still has. */
  lemma {:induction false} RunTracks(cfg: RiskCfg, ws: seq<World>, es: seq<Event>, cuts: seq<nat>, acts: seq<Act>,
                                     a: nat, k: nat, t: nat, i: nat, plan: Ratchet.Plan)
    requires Run(cfg, ws, es) && Chart(ws, cuts, acts) && a <= k <= |acts| && Starts(ws, cuts, acts, a, k, t, i, plan)
    ensures Tracked(ws[cuts[k]], t, i, plan, TrackOf(ws[cuts[a]].db, t, i), PollsOf(ws, cuts, acts, a, k, t, i))
    decreases k
  {
    if a < k {
      RunTracks(cfg, ws, es, cuts, acts, a, k - 1, t, i, plan);
      NextTracks(cfg, ws, es, cuts, acts, k, t, i, plan, TrackOf(ws[cuts[a]].db, t, i),
                 PollsOf(ws, cuts, acts, a, k - 1, t, i));
    }
  }

  /** The durable stop, over every run: never looser than at the start, whatever the rules; and with TP rules
      only, the tightest of the stop at the start and the targets of all TPs reached by the last durable tick
      whose move the broker took. Ticks that were rolled back do not count. */
  lemma DurableStop(cfg: RiskCfg, ws: seq<World>, es: seq<Event>, cuts: seq<nat>, acts: seq<Act>, a: nat, k: nat,
                    t: nat, i: nat, plan: Ratchet.Plan)
    requires Run(cfg, ws, es) && Chart(ws, cuts, acts) && a <= k <= |acts| && Starts(ws, cuts, acts, a, k, t, i, plan)
    ensures i < |ws[cuts[k]].db.legs|
    ensures var start, polls := TrackOf(ws[cuts[a]].db, t, i), PollsOf(ws, cuts, acts, a, k, t, i).saved;
            var n, sl := Ratchet.LastTaken(polls), ws[cuts[k]].db.legs[i].sl;
            && (sl == start.sl || Ratchet.Asked(plan, start, polls, sl)) && !Tighter(plan.side, start.sl, sl)
            && (forall v :: Ratchet.Asked(plan, start, polls, v) ==> !Tighter(plan.side, v, sl))
            && (Ratchet.TpOnly(plan) ==> if n == 0 then sl == start.sl
                                         else Ratchet.IsTightest(plan, start, polls[..n], sl))
  {
    RunTracks(cfg, ws, es, cuts, acts, a, k, t, i, plan);
    var start, polls := TrackOf(ws[cuts[a]].db, t, i), PollsOf(ws, cuts, acts, a, k, t, i).saved;
    var sl := ws[cuts[k]].db.legs[i].sl;
    Ratchet.StopIsTightest(plan, start, polls, sl);
    forall v | Ratchet.Asked(plan, start, polls, v) ensures !Tighter(plan.side, v, sl) {
      Ratchet.StopIsTightest(plan, start, polls, v);
    }
    if Ratchet.TpOnly(plan) {
      Ratchet.ClosedForm(plan, start, polls);
    }
  }
}
