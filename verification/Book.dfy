/**
 The order book's life as a transition system: the durable tables, the monitor's session over them,
 the executor's draft, the driver's position in a deploy, and two ghost tallies of broker calls.
 */
module Book {
  import opened Wrappers
  import opened Prices
  import opened Rows
  import opened Reconcile

  // ---- risk limits -----------------------------------------------------------------------------

  /** The `risk_limits` setting. A cap, or the daily limit, of 0 is off. */
  datatype RiskCfg = RiskCfg(halted: bool, enabled: bool, dailyLoss: real, perSignalPct: real,
                             capSymbol: real, capAccount: real)

  datatype Block = Halted | DailyLoss | PerSignal | SymbolCap | AccountCap

  function RiskLimitReason(cfg: RiskCfg, planned: real, dayRealized: real, openSymbol: real, openAccount: real):
    Option<Block>
  {
    var daily := Abs(cfg.dailyLoss);
    if cfg.halted then Some(Halted)
    else if !cfg.enabled then None
    else if daily > 0.0 && dayRealized <= -daily then Some(DailyLoss)
    else if daily > 0.0 && cfg.perSignalPct != 0.0 && planned > daily * cfg.perSignalPct then Some(PerSignal)
    else if cfg.capSymbol != 0.0 && openSymbol + planned > cfg.capSymbol then Some(SymbolCap)
    else if cfg.capAccount != 0.0 && openAccount + planned > cfg.capAccount then Some(AccountCap)
    else None
  }

  predicate Counts(tr: Trade, account: nat, symbol: Option<string>) {
    !tr.status.Done? && tr.account == account && (symbol.Some? ==> tr.symbol == symbol.value)
  }

  /** Summed planned risk of the account's open and partial trades, optionally of one symbol. */
  function OpenRisk(trades: seq<Trade>, account: nat, symbol: Option<string>): real {
    if trades == [] then 0.0
    else OpenRisk(trades[..|trades| - 1], account, symbol)
         + (if Counts(trades[|trades| - 1], account, symbol) then trades[|trades| - 1].risk else 0.0)
  }

  predicate RiskOk(cfg: RiskCfg, trades: seq<Trade>, draft: Trade, dayRealized: real) {
    RiskLimitReason(cfg, draft.risk, dayRealized, OpenRisk(trades, draft.account, Some(draft.symbol)),
                    OpenRisk(trades, draft.account, None)).None?
  }

  // ---- the state -------------------------------------------------------------------------------

  /** Where the ladder driver is: nowhere, about to place `todo` of tranche `r`, or with the order of
      `leg` sent and not yet committed. */
  datatype Drive = Idle | Ready(r: nat, todo: seq<nat>) | Sent(r: nat, leg: nat, rest: seq<nat>)

  /** What a place_order call tells us. A raising call may or may not have placed. */
  datatype Reply = Accepted(ref: Ref, filled: bool, fill: Option<real>) | Refusal | Raised

  /** `attempts` counts the monitor's place_order calls per leg, `acked` the legs the broker accepted. */
  datatype World = World(db: Db, ses: Db, drive: Drive, draft: Option<Trade>, attempts: multiset<nat>, acked: set<nat>)

  const EMPTY_DB := Db([], [], [])
  const EMPTY := World(EMPTY_DB, EMPTY_DB, Idle, None, multiset{}, {})

  // ---- the executor's hand-over ----------------------------------------------------------------

  function Append(d: Db, trade: Trade, tranches: seq<Tranche>, legs: seq<Leg>): Db {
    Db(d.trades + [trade], d.tranches + tranches, d.legs + legs)
  }

  /** The rows one fanout commits: legs and tranches of the new trade `t`, the tranches owning
      disjoint sets of legs numbered from `base`. */
  ghost predicate GoodBatch(t: nat, base: nat, tranches: seq<Tranche>, legs: seq<Leg>) {
    && (forall i :: 0 <= i < |legs| ==> legs[i].trade == t && LegOk(legs[i]) && Fresh(legs[i].status))
    && (forall r :: 0 <= r < |tranches| ==>
          (&& tranches[r].trade == t && OwnsRange(tranches[r], base, |legs|)
           && tranches[r].state == if tranches[r].role == Rung(Signal) then Deployed else Waiting))
    && (forall r, q, i, j ::
          (&& 0 <= r < |tranches| && 0 <= q < |tranches| && 0 <= i < |tranches[r].legs| && 0 <= j < |tranches[q].legs|
           && tranches[r].legs[i] == tranches[q].legs[j]) ==> r == q && i == j)
  }

  /** What the executor's placement loop leaves a leg as. */
  predicate Fresh(s: LegStatus) { s.Pending? || s.Staged? || s.Working? || s.Open? || s.Rejected? }

  predicate OwnsRange(r: Tranche, base: nat, n: nat) {
    forall i :: 0 <= i < |r.legs| ==> base <= r.legs[i] < base + n
  }

  // ---- the monitor's session edits ---------------------------------------------------------------

  function OpenRefs(legs: seq<Leg>): set<Ref> {
    set i | 0 <= i < |legs| && legs[i].status.Open? && legs[i].posRef.Some? :: legs[i].posRef.value
  }

  /** Legs of tranches other than the executor's own `signal` one. */
  function LateLegs(d: Db, t: nat): set<nat> {
    set r, i | 0 <= r < |d.tranches| && 0 <= i < |d.tranches[r].legs|
               && d.tranches[r].trade == t && d.tranches[r].role != Rung(Signal) :: d.tranches[r].legs[i]
  }

  function CtxFor(d: Db, t: nat, snap: Snapshot): Ctx
    requires t < |d.trades|
  {
    Ctx(d.trades[t].side, d.trades[t].createdAt, LateLegs(d, t), snap)
  }

  function ScanOf(d: Db): Scan { Scan(d.legs, d.tranches, {}, OpenRefs(d.legs)) }

  predicate LegsOfTrade(d: Db, t: nat, ids: seq<nat>) {
    forall k :: 0 <= k < |ids| ==> ids[k] < |d.legs| && d.legs[ids[k]].trade == t
  }

  /** The rows after a pass over `ids`, which an exception at its last close may have cut short. */
  function Reconciled(d: Db, t: nat, snap: Snapshot, ids: seq<nat>, cut: bool): Db
    requires t < |d.trades| && LegsOfTrade(d, t, ids)
  {
    var s := Passed(CtxFor(d, t, snap), ScanOf(d), ids, cut);
    Db(d.trades, s.tranches, s.legs)
  }

  /** Only announcing a close raises inside a pass. */
  predicate EndsInClose(d: Db, t: nat, snap: Snapshot, ids: seq<nat>)
    requires t < |d.trades| && LegsOfTrade(d, t, ids)
  {
    ids != [] && Closes(CtxFor(d, t, snap), Visits(CtxFor(d, t, snap), ScanOf(d), ids[..|ids| - 1]), ids[|ids| - 1])
  }

  /** A leg edit outside reconciliation and placement: stop, fill, or giving up; never a link or a close. */
  predicate LegEdit(a: Leg, b: Leg) {
    && b.orderRef == a.orderRef && b.posRef == a.posRef && b.close == a.close && LegOk(b)
    && (b.status == a.status || b.status.Cancelled? || b.status.Expired?)
  }

  /** Session edits on trade `t` alone: tranches may resolve but not start deploying. */
  ghost predicate EditOk(d: Db, e: Db, t: nat) {
    && SameSize(d, e) && Evolves(d, e) && t < |d.trades| && !d.trades[t].status.Done?
    && (forall u :: 0 <= u < |d.trades| ==>
          e.trades[u] == if u == t then d.trades[u].(mfe := e.trades[u].mfe) else d.trades[u])
    && (forall r :: 0 <= r < |d.tranches| && e.tranches[r] != d.tranches[r] ==>
          d.tranches[r].trade == t && !e.tranches[r].state.Deploying?)
    && (forall i :: 0 <= i < |d.legs| && e.legs[i] != d.legs[i] ==>
          d.legs[i].trade == t && LegEdit(d.legs[i], e.legs[i]))
  }

  predicate AnyClosed(d: Db, t: nat) {
    exists i :: 0 <= i < |d.legs| && d.legs[i].trade == t && d.legs[i].status.Closed?
  }

  /** The roll-up at the end of a trade's tick. */
  function RolledUp(d: Db, t: nat): Db
    requires t < |d.trades|
  {
    var tr := d.trades[t];
    var status := if Quiet(d, t) then Done else if AnyClosed(d, t) then Partial else tr.status;
    d.(trades := d.trades[t := tr.(realized := AuditSum(d.legs, t), status := status)])
  }

  function SetStatus(d: Db, t: nat, status: TradeStatus): Db
    requires t < |d.trades|
  {
    d.(trades := d.trades[t := d.trades[t].(status := status)])
  }

  function SetTranche(d: Db, r: nat, state: TrancheState, now: int): Db
    requires r < |d.tranches|
  {
    d.(tranches := d.tranches[r := d.tranches[r].(state := state, since := now)])
  }

  function SetLeg(d: Db, i: nat, leg: Leg): Db
    requires i < |d.legs|
  {
    d.(legs := d.legs[i := leg])
  }

  /** The legs a deploy will place: the tranche's legs still staged. */
  function StagedOf(d: Db, ids: seq<nat>): (todo: seq<nat>)
    ensures forall k :: 0 <= k < |todo| ==> todo[k] in ids && todo[k] < |d.legs| && d.legs[todo[k]].status.Staged?
    ensures forall i :: i in ids && i < |d.legs| && d.legs[i].status.Staged? ==> i in todo
  {
    if ids == [] then []
    else
      var rest := StagedOf(d, ids[1..]);
      if ids[0] < |d.legs| && d.legs[ids[0]].status.Staged? then [ids[0]] + rest else rest
  }

  /** A leg after its one place_order call. A fill of 0 is unknown. */
  function PlacedLeg(leg: Leg, reply: Reply, now: int): Leg {
    match reply
    case Accepted(ref, filled, fill) =>
      if leg.kind.Market?
      then leg.(posRef := Some(ref), status := if filled then Open else Pending,
                fill := if fill == Some(0.0) then None else fill, since := now)
      else leg.(orderRef := Some(ref), status := Working, since := now)
    case _ => leg.(status := Rejected)
  }

  // ---- transitions -----------------------------------------------------------------------------

  datatype Event =
    | Check(draft: Trade, dayRealized: real)
    | HandOver(tranches: seq<Tranche>, legs: seq<Leg>)
    | DropDraft
    | Pass(t: nat, snap: Snapshot, ids: seq<nat>, cut: bool)
    | Edit(t: nat, edited: Db)
    | RollUp(t: nat)
    | CloseIdle(t: nat)
    | Intent(r: nat, now: int, end: Commit)
    | Place(reply: Reply, now: int)
    | Finish(state: TrancheState, now: int)
    | CommitAll(end: Commit)
    | Crash
    | Abort

  /** A commit reported failed, or a death of the process. */
  predicate Trouble(e: Event) { e.Crash? || ((e.Intent? || e.CommitAll?) && !e.end.Applied?) }

  /** A trade the session still manages. */
  predicate Managed(d: Db, t: nat) { t < |d.trades| && !d.trades[t].status.Done? }

  ghost predicate Enabled(cfg: RiskCfg, w: World, e: Event) {
    match e
    case Check(draft, dayRealized) =>
      w.draft.None? && draft.status.Live? && draft.realized == 0.0 && draft.risk >= 0.0
      && RiskOk(cfg, w.db.trades, draft, dayRealized)
    case HandOver(tranches, legs) => w.draft.Some? && GoodBatch(|w.db.trades|, |w.db.legs|, tranches, legs)
    case DropDraft => true
    case Pass(t, snap, ids, cut) =>
      w.drive.Idle? && Managed(w.ses, t) && LegsOfTrade(w.ses, t, ids) && (cut ==> EndsInClose(w.ses, t, snap, ids))
    case Edit(t, edited) => w.drive.Idle? && EditOk(w.ses, edited, t)
    case RollUp(t) => w.drive.Idle? && Managed(w.ses, t)
    case CloseIdle(t) => w.drive.Idle? && Managed(w.ses, t) && Quiet(w.ses, t)
    case Intent(r, _, _) => w.drive.Idle? && r < |w.ses.tranches| && w.ses.tranches[r].state.Waiting?
    case Place(_, _) => w.drive.Ready? && w.drive.todo != [] && w.drive.todo[0] < |w.ses.legs|
    case Finish(state, _) =>
      w.drive.Ready? && w.drive.todo == [] && w.drive.r < |w.ses.tranches|
      && (state.Refused? || state.Deployed? || state.Armed?)
    case CommitAll(_) => !w.drive.Ready?
    case Crash => true
    case Abort => true
  }

  /** The session reaches the durable tables unless the commit failed, which rolls it back. */
  function Committed(w: World, end: Commit): World {
    var db := if end.Failed? then w.db else w.ses;
    w.(db := db, ses := db,
       drive := if w.drive.Sent? then Ready(w.drive.r, if end.Applied? then w.drive.rest else []) else w.drive)
  }

  ghost function Apply(cfg: RiskCfg, w: World, e: Event): World
    requires Enabled(cfg, w, e)
  {
    match e
    case Check(draft, _) => w.(draft := Some(draft))
    case HandOver(tranches, legs) =>
      w.(db := Append(w.db, w.draft.value, tranches, legs), ses := Append(w.ses, w.draft.value, tranches, legs),
         draft := None)
    case DropDraft => w.(draft := None)
    case Pass(t, snap, ids, cut) => w.(ses := Reconciled(w.ses, t, snap, ids, cut))
    case Edit(t, edited) => w.(ses := edited)
    case RollUp(t) => w.(ses := RolledUp(w.ses, t))
    case CloseIdle(t) => w.(ses := SetStatus(w.ses, t, Done))
    case Intent(r, now, end) =>
      var todo := StagedOf(w.ses, w.ses.tranches[r].legs);
      var logged := Committed(w.(ses := SetTranche(w.ses, r, Deploying, now)), end);
      if end.Applied? then logged.(drive := Ready(r, todo)) else logged
    case Place(reply, now) =>
      var i := w.drive.todo[0];
      w.(ses := SetLeg(w.ses, i, PlacedLeg(w.ses.legs[i], reply, now)),
         drive := Sent(w.drive.r, i, w.drive.todo[1..]),
         attempts := w.attempts + multiset{i}, acked := if reply.Accepted? then w.acked + {i} else w.acked)
    case Finish(state, now) => w.(ses := SetTranche(w.ses, w.drive.r, state, now), drive := Idle)
    case CommitAll(end) => Committed(w, end)
    case Crash => w.(ses := w.db, drive := Idle)
    case Abort => w.(drive := Idle)
  }

  ghost predicate Step(cfg: RiskCfg, w: World, v: World, e: Event) {
    Enabled(cfg, w, e) && v == Apply(cfg, w, e)
  }

  /** A run: its worlds, and the event between each two. */
  ghost predicate Run(cfg: RiskCfg, ws: seq<World>, es: seq<Event>) {
    && |ws| == |es| + 1 && ws[0] == EMPTY
    && forall k :: 0 <= k < |es| ==> StepAt(cfg, ws, es, k)
  }

  ghost predicate StepAt(cfg: RiskCfg, ws: seq<World>, es: seq<Event>, k: nat)
    requires |ws| == |es| + 1 && k < |es|
  {
    Step(cfg, ws[k], ws[k + 1], es[k])
  }

  /** A run may go on with any step. */
  lemma RunGrows(cfg: RiskCfg, ws: seq<World>, es: seq<Event>, v: World, e: Event)
    requires Run(cfg, ws, es) && Step(cfg, ws[|es|], v, e)
    ensures Run(cfg, ws + [v], es + [e])
  {
    var us, fs := ws + [v], es + [e];
    forall k | 0 <= k < |fs| ensures StepAt(cfg, us, fs, k) {
      if k < |es| {
        assert StepAt(cfg, ws, es, k);
      }
    }
  }
}
