/**
 The tables the executor and the monitor share. A table is a sequence and a row's id its index;
 rows are only ever appended, never deleted.
 */
module Rows {
  import opened Wrappers
  import opened Prices
  import opened StopRules

  /** A broker dealId. */
  type Ref = nat

  datatype LegStatus = Pending | Staged | Working | Open | Closed | Rejected | Cancelled | Expired

  datatype OrderKind = Market | Limit | Stop

  /** How a closed leg got its money. */
  datatype Basis = Exact | Unattributed | Heuristic | Duplicate

  /** Everything a close writes. */
  datatype Close = Close(price: real, outcome: Outcome, pl: Option<real>, basis: Option<Basis>)

  /** One order or position. The first seven fields are the plan; `since` restarts the TTL clock. */
  datatype Leg = Leg(trade: nat, tpIndex: int, kind: OrderKind, entry: real, tp: real, lot: real, initialSl: real,
                     sl: real, slMoved: bool, status: LegStatus, orderRef: Option<Ref>, posRef: Option<Ref>,
                     fill: Option<real>, since: int, close: Option<Close>)

  datatype When = Signal | EntryFrom | EntryTo | Mid | Tp1

  /** A rung opens its legs when its level is reached; a cancel row owns no legs. */
  datatype Role = Rung(at: When) | CancelRow(at: When)

  /** The source's pending, deploying, deployed, armed, filled, expired, cancelled, rejected. */
  datatype TrancheState = Waiting | Deploying | Deployed | Armed | Filled | TimedOut | Withdrawn | Refused

  datatype Tranche = Tranche(trade: nat, role: Role, level: Option<real>, legs: seq<nat>, state: TrancheState,
                             since: int)

  /** The source's open, partial, closed. */
  datatype TradeStatus = Live | Partial | Done

  datatype Trade = Trade(signal: nat, account: nat, symbol: string, side: Side, risk: real, createdAt: int,
                         staged: bool, status: TradeStatus, mfe: Option<real>, realized: real)

  datatype Db = Db(trades: seq<Trade>, tranches: seq<Tranche>, legs: seq<Leg>)

  /** pending, working or open: the legs reconciliation still looks at. */
  predicate Active(s: LegStatus) { s.Pending? || s.Working? || s.Open? }

  predicate Terminal(s: LegStatus) { s.Closed? || s.Rejected? || s.Cancelled? || s.Expired? }

  predicate Resolved(s: TrancheState) { s.Filled? || s.TimedOut? || s.Withdrawn? || s.Refused? }

  predicate HasRef(l: Leg) { l.orderRef.Some? || l.posRef.Some? }

  // ---- shape -----------------------------------------------------------------------------------

  /** Foreign keys hold, a tranche's legs are its trade's, and no leg is owned twice. */
  ghost predicate Shaped(d: Db) {
    && (forall i :: 0 <= i < |d.legs| ==> d.legs[i].trade < |d.trades|)
    && (forall r :: 0 <= r < |d.tranches| ==> OwnsLegs(d, d.tranches[r]))
    && (forall r, q, i, j ::
          (&& 0 <= r < |d.tranches| && 0 <= q < |d.tranches|
           && 0 <= i < |d.tranches[r].legs| && 0 <= j < |d.tranches[q].legs|
           && d.tranches[r].legs[i] == d.tranches[q].legs[j]) ==> r == q && i == j)
  }

  predicate OwnsLegs(d: Db, r: Tranche) {
    r.trade < |d.trades|
    && forall i :: 0 <= i < |r.legs| ==> r.legs[i] < |d.legs| && d.legs[r.legs[i]].trade == r.trade
  }

  /** Which columns a status fills in. */
  predicate LegOk(l: Leg) {
    && (l.status.Staged? ==> l.orderRef.None? && l.posRef.None?)
    && (l.status.Working? ==> l.orderRef.Some? && l.posRef.None?)
    && (l.status.Open? || l.status.Pending? ==> l.posRef.Some?)
    && (l.close.Some? <==> l.status.Closed?)
  }

  predicate LegsOk(legs: seq<Leg>) { forall i :: 0 <= i < |legs| ==> LegOk(legs[i]) }

  // ---- how rows may change ---------------------------------------------------------------------

  /** One leg over time: the plan and the links are fixed, a terminal row is frozen (so a close is
      written once), nothing is re-staged, an unfilled market order stays pending, and the stop
      never loosens. */
  predicate LegEvolves(side: Side, a: Leg, b: Leg) {
    && b.trade == a.trade && b.tpIndex == a.tpIndex && b.kind == a.kind && b.entry == a.entry && b.tp == a.tp
    && b.lot == a.lot && b.initialSl == a.initialSl
    && (Terminal(a.status) ==> b == a)
    && (a.orderRef.Some? ==> b.orderRef == a.orderRef)
    && (a.posRef.Some? ==> b.posRef == a.posRef)
    && (b.status.Staged? ==> a.status.Staged?)
    && (a.status.Pending? ==> b.status.Pending?)
    && (a.status.Open? ==> b.status.Open? || b.status.Closed?)
    && (a.status.Working? ==> !b.status.Pending? && !b.status.Rejected?)
    && !Tighter(side, a.sl, b.sl)
  }

  predicate TrancheEvolves(a: Tranche, b: Tranche) {
    && b.trade == a.trade && b.role == a.role && b.level == a.level && b.legs == a.legs
    && (b.state.Waiting? ==> a.state.Waiting?)
  }

  predicate TradeEvolves(a: Trade, b: Trade) {
    && b.signal == a.signal && b.account == a.account && b.symbol == a.symbol && b.side == a.side
    && b.risk == a.risk && b.createdAt == a.createdAt && b.staged == a.staged
    && (a.status.Done? ==> b.status.Done?)
  }

  /** `b` is `a` with rows evolved and possibly new rows appended. */
  ghost predicate Evolves(a: Db, b: Db) {
    && |a.trades| <= |b.trades| && |a.tranches| <= |b.tranches| && |a.legs| <= |b.legs|
    && (forall t :: 0 <= t < |a.trades| ==> TradeEvolves(a.trades[t], b.trades[t]))
    && (forall r :: 0 <= r < |a.tranches| ==> TrancheEvolves(a.tranches[r], b.tranches[r]))
    && (forall i :: 0 <= i < |a.legs| && a.legs[i].trade < |a.trades|
          ==> LegEvolves(a.trades[a.legs[i].trade].side, a.legs[i], b.legs[i]))
  }

  ghost predicate SameSize(a: Db, b: Db) {
    |a.trades| == |b.trades| && |a.tranches| == |b.tranches| && |a.legs| == |b.legs|
  }

  lemma EvolvesTransitive(a: Db, b: Db, c: Db)
    requires Evolves(a, b) && Evolves(b, c)
    ensures Evolves(a, c)
  {}

  lemma EvolvesShape(a: Db, b: Db)
    requires Shaped(a) && Evolves(a, b) && SameSize(a, b)
    ensures Shaped(b)
  {}

  // ---- queries ---------------------------------------------------------------------------------

  /** No leg of the trade is pending, working or open, and none of its tranches still waits. */
  predicate Quiet(d: Db, t: nat) {
    && (forall i :: 0 <= i < |d.legs| && d.legs[i].trade == t ==> !Active(d.legs[i].status))
    && NoneWaiting(d, t)
  }

  predicate NoneWaiting(d: Db, t: nat) {
    forall r :: 0 <= r < |d.tranches| && d.tranches[r].trade == t ==> !d.tranches[r].state.Waiting?
  }

  ghost predicate DoneIsQuiet(d: Db) {
    forall t :: 0 <= t < |d.trades| && d.trades[t].status.Done? ==> Quiet(d, t)
  }

  predicate Auditable(basis: Option<Basis>) { basis.None? || basis == Some(Exact) }

  /** What one leg adds to the book: settled money of a closed leg on an auditable basis. */
  function Booked(l: Leg): real {
    if l.status.Closed? && l.close.Some? && l.close.value.pl.Some? && Auditable(l.close.value.basis)
    then l.close.value.pl.value else 0.0
  }

  function AuditSum(legs: seq<Leg>, t: nat): real {
    if legs == [] then 0.0
    else AuditSum(legs[..|legs| - 1], t)
         + (if legs[|legs| - 1].trade == t then Booked(legs[|legs| - 1]) else 0.0)
  }
}
