/** What the ladder driver and the rule-cancel decide, before anything is done about it. */
module Ladder {
  import opened Wrappers
  import opened Prices
  import opened Rows
  import opened Reconcile
  import opened Book
  import opened Invariants
  import opened Steps

  const DEFAULT_ENTRY_TTL_MIN := 60
  const MIN_ENTRY_TTL_MIN := 1
  const MAX_ENTRY_TTL_MIN := 480

  /** The entry TTL a source configures; unset or unreadable falls back to the default. It is never
      off, which is what lets every waiting row time out. */
  function EffectiveEntryTtl(configured: Option<int>): (ttl: nat)
    ensures MIN_ENTRY_TTL_MIN <= ttl <= MAX_ENTRY_TTL_MIN
    ensures configured.Some? && MIN_ENTRY_TTL_MIN <= configured.value <= MAX_ENTRY_TTL_MIN ==> ttl == configured.value
  {
    var v := configured.GetOr(DEFAULT_ENTRY_TTL_MIN);
    if v < MIN_ENTRY_TTL_MIN then MIN_ENTRY_TTL_MIN else if v > MAX_ENTRY_TTL_MIN then MAX_ENTRY_TTL_MIN else v
  }

  /** How the broker answers the monitor: to the one order each leg may send, and which orders it lets
      go and which positions it lets be modified. */
  datatype Broker = Broker(replies: nat -> Reply, cancels: set<Ref>, moves: set<Ref>)

  /** What one drive of one trade looks at. Times are seconds, the TTL minutes. */
  datatype Facts = Facts(side: Side, entryPx: real, targetPx: real, now: int, createdAt: int, ttl: nat,
                         staged: StagedCfg)

  function FactsFrom(side: Side, q: Quote, mid: real, now: int, createdAt: int, ttl: nat, staged: StagedCfg): Facts {
    Facts(side, EntrySide(side, q, mid), TargetSide(side, q, mid), now, createdAt, ttl, staged)
  }

  /** A TP is a target, every other level an entry; a row without a level is never hit. */
  predicate Hit(f: Facts, tr: Tranche) {
    tr.level.Some?
    && if tr.role.at.Tp1? then ReachedTarget(f.side, f.targetPx, tr.level.value)
       else Reached(f.side, f.entryPx, tr.level.value)
  }

  /** Waiting longer than the entry TTL. */
  predicate Stale(f: Facts, tr: Tranche) { f.ttl > 0 && f.now - tr.since > 60 * f.ttl }

  datatype Verdict = Keep | Expire | Deploy

  /** The price that would trade is at the row's level: for a BUY the price paid is down at an entry level, or
      the price got is up at the target; for a SELL the other way round. */
  predicate Touched(f: Facts, tr: Tranche) {
    && tr.level.Some?
    && match (f.side, tr.role.at)
       case (Buy, Tp1) => tr.level.value <= f.targetPx
       case (Sell, Tp1) => f.targetPx <= tr.level.value
       case (Buy, _) => f.entryPx <= tr.level.value
       case (Sell, _) => tr.level.value <= f.entryPx
  }

  /** The whole entry is older than its ceiling, in minutes; a ceiling of 0 is none. */
  predicate TooOld(f: Facts) {
    0 < f.staged.maxEntryAge && f.createdAt + 60 * f.staged.maxEntryAge < f.now
  }

  /** A rung whose time has come: touched, and the entry is not too old. */
  predicate Due(f: Facts, tr: Tranche) { tr.role.Rung? && Touched(f, tr) && !TooOld(f) }

  /** A row whose time is over: a rung of an entry that is too old, or any row that waited out its TTL. */
  predicate Lapsed(f: Facts, tr: Tranche) {
    (tr.role.Rung? && TooOld(f)) || (0 < f.ttl && tr.since + 60 * f.ttl < f.now)
  }

  /** What a waiting row gets on a tick on which no cancel row fires. The age ceiling comes before the
      trigger, the TTL after it. */
  function Judge(f: Facts, tr: Tranche): (v: Verdict)
    ensures v.Keep? ==> !Stale(f, tr)
    ensures v.Deploy? <==> Due(f, tr)
    ensures v.Expire? <==> !Due(f, tr) && Lapsed(f, tr)
  {
    if tr.role.CancelRow? then if Stale(f, tr) then Expire else Keep
    else if EntryAgeExceeded(f.staged, f.now, f.createdAt) then Expire
    else if Hit(f, tr) then Deploy
    else if Stale(f, tr) then Expire
    else Keep
  }

  /** The trade has, or had, a position. */
  predicate EverFilled(d: Db, t: nat) {
    exists i :: 0 <= i < |d.legs| && d.legs[i].trade == t && (d.legs[i].status.Open? || d.legs[i].status.Closed?)
  }

  predicate AnyOpen(d: Db, t: nat) {
    exists i :: 0 <= i < |d.legs| && d.legs[i].trade == t && d.legs[i].status.Open?
  }

  /** A cancel row fires only once the trade has been in the market. */
  predicate Fires(f: Facts, d: Db, tr: Tranche) { tr.role.CancelRow? && Hit(f, tr) && EverFilled(d, tr.trade) }

  /** What fires: a touched cancel row of a trade that some leg has been in the market for. */
  lemma FiresWhen(f: Facts, d: Db, tr: Tranche)
    ensures Fires(f, d, tr)
       <==> tr.role.CancelRow? && Touched(f, tr)
            && exists i :: 0 <= i < |d.legs| && d.legs[i].trade == tr.trade
                           && (d.legs[i].status == Open || d.legs[i].status == Closed)
  {}

  /** `g` is `f` with both prices as far or further in the direction that suits the trade. */
  predicate Suits(f: Facts, g: Facts) {
    && g == f.(entryPx := g.entryPx, targetPx := g.targetPx)
    && if f.side.Buy? then g.entryPx <= f.entryPx && f.targetPx <= g.targetPx
       else f.entryPx <= g.entryPx && g.targetPx <= f.targetPx
  }

  /** A better price never turns a deploy into anything else, nor keeps a cancel row from firing. */
  lemma BetterStillDeploys(f: Facts, g: Facts, d: Db, tr: Tranche)
    requires Suits(f, g)
    ensures Judge(f, tr).Deploy? ==> Judge(g, tr).Deploy?
    ensures Fires(f, d, tr) ==> Fires(g, d, tr)
  {}

  datatype CancelWhy = Progressed | StoppedOut

  /** Why a trade's resting entries are stale: it is out of the market, or the market moved without them. */
  function CancelReason(d: Db, t: nat, tpsHit: bool, slMoved: bool): Option<CancelWhy> {
    if !EverFilled(d, t) then None
    else if !AnyOpen(d, t) then Some(StoppedOut)
    else if tpsHit || slMoved then Some(Progressed)
    else None
  }

  // ---- what a deploy leaves ----------------------------------------------------------------------

  /** `b` is `a` after its one order got `reply`, at some time. */
  ghost predicate WasPlaced(a: Leg, b: Leg, reply: Reply) { exists at: int :: b == PlacedLeg(a, reply, at) }

  /** `b` is `a` after its one order was answered: a market order holds the position the broker named, open at
      its fill or pending without one; any other order rests on the order it named; and one that was refused,
      or that raised, is rejected. A fill of 0 is not a fill. */
  ghost predicate AnsweredAs(a: Leg, b: Leg, reply: Reply) {
    && b == a.(status := b.status, orderRef := b.orderRef, posRef := b.posRef, fill := b.fill, since := b.since)
    && if !reply.Accepted? then b == a.(status := Rejected)
       else if a.kind.Market? then
         && (if reply.filled then b.status == Open else b.status == Pending)
         && b.posRef == Some(reply.ref) && b.orderRef == a.orderRef
         && b.fill == if reply.fill == Some(0.0) then None else reply.fill
       else b.status == Working && b.orderRef == Some(reply.ref) && b.posRef == a.posRef && b.fill == a.fill
  }

  lemma PlacedMeans(a: Leg, b: Leg, reply: Reply)
    requires WasPlaced(a, b, reply)
    ensures AnsweredAs(a, b, reply)
  {}

  /** An order that is taken restarts the leg's clock at the time it was placed. */
  lemma PlacedAtTime(a: Leg, reply: Reply, at: int)
    requires reply.Accepted?
    ensures AnsweredAs(a, PlacedLeg(a, reply, at), reply) && PlacedLeg(a, reply, at).since == at
  {}

  ghost predicate ReadyToPlace(d: Db, todo: seq<nat>) {
    && Distinct(todo)
    && forall k :: 0 <= k < |todo| ==> todo[k] < |d.legs| && d.legs[todo[k]].status.Staged? && LegOk(d.legs[todo[k]])
  }

  /** The broker takes the order, or the stop order, of one of the first `j` legs of `todo`. */
  predicate Takes(m: Broker, legs: seq<Leg>, todo: seq<nat>, j: nat, stops: bool) {
    exists k :: 0 <= k < j <= |todo| && m.replies(todo[k]).Accepted?
                && (stops ==> todo[k] < |legs| && legs[todo[k]].kind.Stop?)
  }

  /** What a rung is settled as once the first `j` legs of `todo` were sent: refused when the broker took
      none, armed when it took a stop order, deployed otherwise. */
  function SettledAs(m: Broker, legs: seq<Leg>, todo: seq<nat>, j: nat): TrancheState {
    if !Takes(m, legs, todo, j, false) then Refused else if Takes(m, legs, todo, j, true) then Armed else Deployed
  }

  /** `b` is `a` with tranche `r` and the first `j` legs of `todo` gone through placement. */
  ghost predicate PlacedUpTo(m: Broker, a: Db, b: Db, r: nat, todo: seq<nat>, j: nat) {
    && b.trades == a.trades && SameSize(a, b) && j <= |todo|
    && (forall q :: 0 <= q < |a.tranches| && q != r ==> b.tranches[q] == a.tranches[q])
    && (r < |a.tranches| ==>
          b.tranches[r] == a.tranches[r].(state := b.tranches[r].state, since := b.tranches[r].since))
    && (forall i :: 0 <= i < |a.legs| && i !in todo[..j] ==> b.legs[i] == a.legs[i])
    && (forall k :: 0 <= k < j && todo[k] < |a.legs| ==>
          WasPlaced(a.legs[todo[k]], b.legs[todo[k]], m.replies(todo[k])))
  }

  /** A whole rung: every staged leg of it placed, and the tranche settled by what the broker took. */
  ghost predicate DeployedRung(m: Broker, a: Db, b: Db, r: nat)
    requires r < |a.tranches|
  {
    var todo := StagedOf(a, a.tranches[r].legs);
    PlacedUpTo(m, a, b, r, todo, |todo|) && b.tranches[r].state == SettledAs(m, a.legs, todo, |todo|)
  }

  /** Part way through a rung: `tried` orders sent and `kept` of them recorded durably, all but the last one
      for sure. `placed` and `armed` say what the broker took. */
  ghost predicate PlacedSoFar(m: Broker, a: Db, b: Db, r: nat, todo: seq<nat>, tried: nat, kept: nat,
                              placed: nat, armed: bool)
  {
    && PlacedUpTo(m, a, b, r, todo, kept) && kept <= tried <= kept + 1 && tried <= |todo|
    && Counted(m, a.legs, todo, tried, placed, armed)
  }

  ghost predicate Counted(m: Broker, legs: seq<Leg>, todo: seq<nat>, tried: nat, placed: nat, armed: bool) {
    && (placed > 0 <==> Takes(m, legs, todo, tried, false)) && (armed <==> Takes(m, legs, todo, tried, true))
  }

  /** Rung `r` after an intent that became durable: the first `kept` of its legs recorded with the broker's
      answers, the last order sent recorded or lost, and nothing else changed. */
  ghost predicate RungLeft(m: Broker, a: Db, b: Db, r: nat, tried: nat, kept: nat) {
    && r < |a.tranches| && kept <= tried <= kept + 1
    && PlacedUpTo(m, a, b, r, StagedOf(a, a.tranches[r].legs), kept)
  }

  /** Such a rung stays deploying until it is settled, and then says what the broker took of what was sent,
      recorded or not. */
  ghost predicate RungOutcome(m: Broker, a: Db, b: Db, r: nat, tried: nat, kept: nat, settled: bool) {
    && RungLeft(m, a, b, r, tried, kept)
    && b.tranches[r].state
       == if settled then SettledAs(m, a.legs, StagedOf(a, a.tranches[r].legs), tried) else Deploying
  }

  lemma LoggedOutcome(m: Broker, a: Db, logs: Db, b: Db, r: nat, now: int, tried: nat, kept: nat, placed: nat,
                      armed: bool)
    requires r < |a.tranches| && logs == SetTranche(a, r, Deploying, now) && b.tranches == logs.tranches
    requires PlacedSoFar(m, logs, b, r, StagedOf(a, a.tranches[r].legs), tried, kept, placed, armed)
    ensures RungOutcome(m, a, b, r, tried, kept, false)
  {}

  lemma SettledOutcome(m: Broker, a: Db, b: Db, c: Db, r: nat, tried: nat, kept: nat, placed: nat, armed: bool, at: int)
    requires RungOutcome(m, a, b, r, tried, kept, false) && r < |b.tranches|
    requires Counted(m, a.legs, StagedOf(a, a.tranches[r].legs), tried, placed, armed)
    requires c == SetTranche(b, r, if placed == 0 then Refused else if armed then Armed else Deployed, at)
    ensures RungOutcome(m, a, c, r, tried, kept, true)
  {}

  lemma OutcomeDeployed(m: Broker, a: Db, b: Db, r: nat, tried: nat)
    requires r < |a.tranches| && tried == |StagedOf(a, a.tranches[r].legs)|
    requires RungOutcome(m, a, b, r, tried, tried, true)
    ensures DeployedRung(m, a, b, r)
  {}

  /** Sending leg `todo[j]` too, and recording it or not. */
  lemma PlacedOneMore(m: Broker, a: Db, b: Db, c: Db, r: nat, todo: seq<nat>, j: nat, kept: bool, at: int)
    requires PlacedUpTo(m, a, b, r, todo, j) && j < |todo| && ReadyToPlace(a, todo)
    requires c == if kept then SetLeg(b, todo[j], PlacedLeg(b.legs[todo[j]], m.replies(todo[j]), at)) else b
    ensures PlacedUpTo(m, a, c, r, todo, if kept then j + 1 else j)
  {
    var i := todo[j];
    assert i !in todo[..j] && todo[..j + 1] == todo[..j] + [i];
    if kept {
      assert WasPlaced(a.legs[i], c.legs[i], m.replies(i));
    }
  }

  lemma TakesNext(m: Broker, legs: seq<Leg>, todo: seq<nat>, j: nat, stops: bool)
    requires j < |todo| && todo[j] < |legs|
    ensures Takes(m, legs, todo, j + 1, stops)
       <==> Takes(m, legs, todo, j, stops) || (m.replies(todo[j]).Accepted? && (stops ==> legs[todo[j]].kind.Stop?))
  {}

  /** The calls made so far: one for each of the first `j` legs of `todo`. */
  ghost predicate Tried(before: multiset<nat>, after: multiset<nat>, todo: seq<nat>, j: nat) {
    j <= |todo| && after == before + multiset(todo[..j])
  }

  lemma TriedNext(before: multiset<nat>, after: multiset<nat>, todo: seq<nat>, j: nat)
    requires j < |todo| && Tried(before, after, todo, j)
    ensures Tried(before, after + multiset{todo[j]}, todo, j + 1)
  {
    assert todo[..j + 1] == todo[..j] + [todo[j]];
  }

  // ---- what a drive leaves -----------------------------------------------------------------------

  /** The broker takes the order, or the stop order, of some unplaced leg among `ids`. */
  predicate AnyTaken(m: Broker, a: Db, ids: seq<nat>, stops: bool) {
    exists i :: i in ids && i < |a.legs| && a.legs[i].status.Staged? && m.replies(i).Accepted?
                && (stops ==> a.legs[i].kind.Stop?)
  }

  /** What becomes of one leg of a row with verdict `v`. */
  ghost predicate LegOutcome(v: Verdict, rung: bool, reply: Reply, a: Leg, b: Leg) {
    if !rung || v.Keep? || !a.status.Staged? then b == a
    else if v.Expire? then b == a.(status := Expired)
    else WasPlaced(a, b, reply)
  }

  /** What becomes of waiting row `r`: nothing yet; timed out, its unplaced legs expired; or its legs
      placed, and the row refused when the broker took none, armed when it took a stop, else deployed. */
  ghost predicate RowOutcome(f: Facts, m: Broker, a: Db, b: Db, r: nat)
    requires r < |a.tranches|
  {
    var tr, v := a.tranches[r], Judge(f, a.tranches[r]);
    && SameSize(a, b)
    && (forall i :: i in tr.legs && i < |a.legs| ==> LegOutcome(v, tr.role.Rung?, m.replies(i), a.legs[i], b.legs[i]))
    && match v
       case Keep => b.tranches[r] == tr
       case Expire => b.tranches[r] == tr.(state := TimedOut, since := f.now)
       case Deploy =>
         b.tranches[r] == tr.(since := b.tranches[r].since,
                              state := if !AnyTaken(m, a, tr.legs, false) then Refused
                                       else if AnyTaken(m, a, tr.legs, true) then Armed else Deployed)
  }

  /** Only row `r` and its own legs may differ. */
  ghost predicate OnlyRow(a: Db, b: Db, r: nat) {
    && SameSize(a, b) && b.trades == a.trades
    && (forall q :: 0 <= q < |a.tranches| && q != r ==> b.tranches[q] == a.tranches[q])
    && (r < |a.tranches| ==> forall i :: 0 <= i < |a.legs| && i !in a.tranches[r].legs ==> b.legs[i] == a.legs[i])
  }

  lemma DeployedOutcome(f: Facts, m: Broker, a: Db, b: Db, r: nat)
    requires r < |a.tranches| && DeployedRung(m, a, b, r) && Judge(f, a.tranches[r]).Deploy?
    ensures RowOutcome(f, m, a, b, r) && OnlyRow(a, b, r)
  {
    var tr := a.tranches[r];
    var todo := StagedOf(a, tr.legs);
    assert todo[..|todo|] == todo;
    forall i | i in tr.legs && i < |a.legs| ensures LegOutcome(Deploy, true, m.replies(i), a.legs[i], b.legs[i]) {
      if i in todo {
        var k :| 0 <= k < |todo| && todo[k] == i;
      }
    }
    TakesAny(m, a, tr.legs, false);
    TakesAny(m, a, tr.legs, true);
  }

  lemma TakesAny(m: Broker, a: Db, ids: seq<nat>, stops: bool)
    ensures var todo := StagedOf(a, ids); Takes(m, a.legs, todo, |todo|, stops) == AnyTaken(m, a, ids, stops)
  {
    var todo := StagedOf(a, ids);
    if AnyTaken(m, a, ids, stops) {
      var i :| i in ids && i < |a.legs| && a.legs[i].status.Staged? && m.replies(i).Accepted?
               && (stops ==> a.legs[i].kind.Stop?);
      var k :| 0 <= k < |todo| && todo[k] == i;
    }
  }

  predicate OwnedByNone(d: Db, rows: seq<nat>, j: nat, i: nat)
    requires j <= |rows|
  {
    forall k :: 0 <= k < j && rows[k] < |d.tranches| ==> i !in d.tranches[rows[k]].legs
  }

  /** Every waiting row of the trade got its verdict's outcome, and nothing else changed. */
  ghost predicate Driven(f: Facts, m: Broker, a: Db, b: Db, rows: seq<nat>, j: nat) {
    && SameSize(a, b) && b.trades == a.trades && j <= |rows|
    && (forall k :: 0 <= k < j ==> rows[k] < |a.tranches| && RowOutcome(f, m, a, b, rows[k]))
    && (forall q :: 0 <= q < |a.tranches| && q !in rows[..j] ==> b.tranches[q] == a.tranches[q])
    && (forall i :: 0 <= i < |a.legs| && OwnedByNone(a, rows, j, i) ==> b.legs[i] == a.legs[i])
  }

  predicate IsPending(d: Db, t: nat, rows: seq<nat>) {
    && Distinct(rows)
    && (forall k :: 0 <= k < |rows| ==>
          (rows[k] < |d.tranches| && d.tranches[rows[k]].trade == t && d.tranches[rows[k]].state.Waiting?))
    && (forall r :: 0 <= r < |d.tranches| && d.tranches[r].trade == t && d.tranches[r].state.Waiting? ==> r in rows)
  }

  /** Rows `rows[j..]` still wait. */
  ghost predicate StillWait(d: Db, t: nat, rows: seq<nat>, j: nat) {
    forall k :: j <= k < |rows| ==> WaitsIn(d, rows[k], t)
  }

  /** Driving one more row keeps the earlier rows' outcomes: rows own disjoint legs. */
  lemma DrivenNext(f: Facts, m: Broker, a: Db, b: Db, c: Db, rows: seq<nat>, j: nat)
    requires Shaped(a) && Driven(f, m, a, b, rows, j) && j < |rows| && Distinct(rows) && rows[j] < |a.tranches|
    requires RowOutcome(f, m, b, c, rows[j]) && OnlyRow(b, c, rows[j])
    ensures Driven(f, m, a, c, rows, j + 1)
  {
    var r := rows[j];
    assert r !in rows[..j] && b.tranches[r] == a.tranches[r];
    assert rows[..j + 1] == rows[..j] + [r];
    forall k, i | 0 <= k < j && i in a.tranches[r].legs ensures i !in a.tranches[rows[k]].legs {
      if i in a.tranches[rows[k]].legs {
        OwnedOnce(a, r, rows[k], i);
      }
    }
    assert OwnsLegs(a, a.tranches[r]);
    assert forall i :: i in a.tranches[r].legs && i < |a.legs| ==> b.legs[i] == a.legs[i];
    assert RowOutcome(f, m, a, c, r);
    forall k | 0 <= k < j ensures RowOutcome(f, m, a, c, rows[k]) {
      assert rows[k] != r && RowOutcome(f, m, a, b, rows[k]);
      assert forall i :: i in a.tranches[rows[k]].legs && i < |a.legs| ==> c.legs[i] == b.legs[i];
    }
  }

  /** Bounded waiting: nothing the drive leaves waiting is older than the entry TTL. */
  lemma DrivenNotStale(f: Facts, m: Broker, a: Db, b: Db, t: nat, rows: seq<nat>, r: nat)
    requires IsPending(a, t, rows) && Driven(f, m, a, b, rows, |rows|)
    requires r < |b.tranches| && b.tranches[r].trade == t && b.tranches[r].state.Waiting?
    ensures !Stale(f, b.tranches[r])
  {}

  /** What a drive leaves of waiting row `r`. Due: its unplaced legs answered by the broker, and the row refused
      if it took none of their orders, armed if it took a stop order, deployed otherwise. Lapsed: timed out, a
      rung's unplaced legs expired. Otherwise unchanged. */
  ghost predicate RowDriven(f: Facts, m: Broker, a: Db, b: Db, r: nat)
    requires r < |a.tranches|
  {
    var tr, legs := a.tranches[r], set i | i in a.tranches[r].legs && i < |a.legs| && a.legs[i].status == Staged;
    && SameSize(a, b)
    && if Due(f, tr) then
         && (forall i :: i in legs ==> AnsweredAs(a.legs[i], b.legs[i], m.replies(i)))
         && b.tranches[r] == tr.(state := b.tranches[r].state, since := b.tranches[r].since)
         && (if forall i :: i in legs ==> !m.replies(i).Accepted? then b.tranches[r].state == Refused
             else if exists i :: i in legs && m.replies(i).Accepted? && a.legs[i].kind == Stop
             then b.tranches[r].state == Armed else b.tranches[r].state == Deployed)
       else if Lapsed(f, tr) then
         && b.tranches[r] == tr.(state := TimedOut, since := f.now)
         && forall i :: i in legs ==> b.legs[i] == if tr.role.Rung? then a.legs[i].(status := Expired) else a.legs[i]
       else b.tranches[r] == tr && forall i :: i in legs ==> b.legs[i] == a.legs[i]
  }

  lemma OutcomeMeans(f: Facts, m: Broker, a: Db, b: Db, r: nat)
    requires r < |a.tranches| && RowOutcome(f, m, a, b, r)
    ensures RowDriven(f, m, a, b, r)
  {
    var tr, v := a.tranches[r], Judge(f, a.tranches[r]);
    forall i | i in tr.legs && i < |a.legs| && a.legs[i].status == Staged && v.Deploy?
      ensures AnsweredAs(a.legs[i], b.legs[i], m.replies(i))
    {
      assert LegOutcome(v, tr.role.Rung?, m.replies(i), a.legs[i], b.legs[i]);
      PlacedMeans(a.legs[i], b.legs[i], m.replies(i));
    }
  }

  /** Every waiting row of the trade. */
  ghost predicate RowsDriven(f: Facts, m: Broker, a: Db, b: Db, t: nat) {
    forall r :: 0 <= r < |a.tranches| && WaitsIn(a, r, t) ==> RowDriven(f, m, a, b, r)
  }

  /** Some waiting cancel row is touched, and the trade has been in the market. */
  ghost predicate CancelDue(f: Facts, d: Db, t: nat) {
    && (exists i :: 0 <= i < |d.legs| && d.legs[i].trade == t
                    && (d.legs[i].status == Open || d.legs[i].status == Closed))
    && exists r :: 0 <= r < |d.tranches| && WaitsIn(d, r, t) && TouchedCancel(f, d.tranches[r])
  }

  predicate TouchedCancel(f: Facts, tr: Tranche) { tr.role.CancelRow? && Touched(f, tr) }

  // ---- giving up ---------------------------------------------------------------------------------

  /** The staged legs among `ids` are now `status`. */
  predicate GaveUp(a: seq<Leg>, b: seq<Leg>, ids: seq<nat>, status: LegStatus) {
    |a| == |b|
    && forall i :: 0 <= i < |a| ==> b[i] == if i in ids && a[i].status.Staged? then a[i].(status := status) else a[i]
  }

  lemma GaveUpOneMore(a: seq<Leg>, b: seq<Leg>, ids: seq<nat>, k: nat, status: LegStatus)
    requires k < |ids| && ids[k] < |b| && GaveUp(a, b, ids[..k], status) && !status.Staged?
    ensures GaveUp(a, if b[ids[k]].status.Staged? then b[ids[k] := b[ids[k]].(status := status)] else b, ids[..k + 1],
                   status)
  {}

  /** What a commit that may roll back keeps: waiting rows still wait, and a trade the session manages
      is still managed. */
  ghost predicate Carries(a: Db, b: Db) {
    && SameSize(a, b)
    && (forall q :: 0 <= q < |a.tranches| && a.tranches[q].state.Waiting? ==> WaitsIn(b, q, a.tranches[q].trade))
    && (forall t :: 0 <= t < |a.trades| && !a.trades[t].status.Done? ==> !b.trades[t].status.Done?)
  }

  predicate WaitsIn(d: Db, q: nat, t: nat) {
    q < |d.tranches| && d.tranches[q].state.Waiting? && d.tranches[q].trade == t
  }

  /** Apart from row `r`, which is being dealt with. */
  ghost predicate CarriesRest(a: Db, b: Db, r: nat) {
    && SameSize(a, b)
    && (forall q :: 0 <= q < |a.tranches| && q != r && a.tranches[q].state.Waiting? ==>
          WaitsIn(b, q, a.tranches[q].trade))
    && (forall t :: 0 <= t < |a.trades| && !a.trades[t].status.Done? ==> !b.trades[t].status.Done?)
  }

  /** A trade that is managed stays managed. */
  ghost predicate KeepsTrades(a: Db, b: Db) { forall u :: 0 <= u < |a.trades| && Managed(a, u) ==> Managed(b, u) }

  /** Every other trade does. */
  ghost predicate KeepsOthers(a: Db, b: Db, t: nat) {
    forall u :: 0 <= u < |a.trades| && u != t && Managed(a, u) ==> Managed(b, u)
  }

  lemma RestKeepsTrades(a: Db, b: Db, r: nat)
    requires CarriesRest(a, b, r)
    ensures KeepsTrades(a, b)
  {}

  lemma SetThenCarries(a: Db, mid: Db, b: Db, r: nat)
    requires CarriesRest(a, mid, r) && Carries(mid, b)
    ensures CarriesRest(a, b, r)
  {}

  lemma CarriesRestOf(a: Db, b: Db, r: nat)
    requires Carries(a, b)
    ensures CarriesRest(a, b, r)
  {}

  lemma CarriesThenRest(a: Db, mid: Db, b: Db, r: nat)
    requires CarriesRest(a, mid, r) && CarriesRest(mid, b, r)
    ensures CarriesRest(a, b, r)
  {}

  lemma RollbackCarries(db: Db, ses: Db)
    requires Synced(db, ses)
    ensures Carries(ses, db)
  {}

  // ---- pulling and withdrawing -------------------------------------------------------------------

  /** A resting order of the trade among `keys`. */
  predicate Pulled(l: Leg, t: nat, keys: set<Ref>) {
    l.trade == t && l.status.Working? && l.orderRef.Some? && l.orderRef.value in keys
  }

  function PullOrders(legs: seq<Leg>, t: nat, keys: set<Ref>, k: nat): (r: seq<Leg>)
    requires k <= |legs|
    ensures |r| == |legs|
  {
    seq(|legs|, i requires 0 <= i < |legs| =>
      if i < k && Pulled(legs[i], t, keys) then legs[i].(status := Cancelled) else legs[i])
  }

  /** Leg `i` belongs to a waiting row of the trade other than `r`. */
  predicate OwnedByOther(d: Db, t: nat, r: nat, i: nat) {
    exists q :: 0 <= q < |d.tranches| && q != r && WaitsIn(d, q, t) && i in d.tranches[q].legs
  }

  /** Every waiting row of the trade but `r` withdrawn, and its unplaced legs cancelled. */
  function WithdrawAllBut(d: Db, t: nat, r: nat, now: int): (e: Db)
    ensures SameSize(d, e)
  {
    Db(d.trades,
       seq(|d.tranches|, q requires 0 <= q < |d.tranches| =>
         if q != r && WaitsIn(d, q, t) then d.tranches[q].(state := Withdrawn, since := now) else d.tranches[q]),
       seq(|d.legs|, i requires 0 <= i < |d.legs| =>
         if OwnedByOther(d, t, r, i) && d.legs[i].status.Staged? then d.legs[i].(status := Cancelled) else d.legs[i]))
  }

  /** Cancel row `r` fires: it is filled, every other waiting row is withdrawn, and every resting order of
      the trade that the broker lets go is cancelled. */
  function FireRow(d: Db, t: nat, r: nat, keys: set<Ref>, now: int): (e: Db)
    requires r < |d.tranches|
    ensures SameSize(d, e)
  {
    var w := WithdrawAllBut(d, t, r, now);
    SetTranche(w.(legs := PullOrders(w.legs, t, keys, |w.legs|)), r, Filled, now)
  }

  /** Row `r` of trade `t` fired: it is filled, the other rows that waited are withdrawn with the legs they had
      not placed, and the resting orders among `keys` are cancelled. No other row or leg changes. */
  ghost predicate Fired(a: Db, b: Db, t: nat, r: nat, keys: set<Ref>, now: int) {
    && SameSize(a, b) && b.trades == a.trades && r < |a.tranches|
    && (forall q :: 0 <= q < |a.tranches| ==>
          b.tranches[q] == if q == r then a.tranches[q].(state := Filled, since := now)
                           else if WaitsIn(a, q, t) then a.tranches[q].(state := Withdrawn, since := now)
                           else a.tranches[q])
    && (forall i :: 0 <= i < |a.legs| ==> b.legs[i] == if Dropped(a, t, r, keys, i)
                                                       then a.legs[i].(status := Cancelled) else a.legs[i])
  }

  /** Leg `i` rests at the broker on an order that it lets go, or is one that some other waiting row has not
      placed. */
  predicate Dropped(d: Db, t: nat, r: nat, keys: set<Ref>, i: nat)
    requires i < |d.legs|
  {
    var l := d.legs[i];
    || (l.trade == t && l.status == Working && exists key :: key in keys && l.orderRef == Some(key))
    || (l.status == Staged
        && exists q :: 0 <= q < |d.tranches| && q != r && WaitsIn(d, q, t) && i in d.tranches[q].legs)
  }

  lemma FireMeans(d: Db, t: nat, r: nat, keys: set<Ref>, now: int)
    requires r < |d.tranches|
    ensures Fired(d, FireRow(d, t, r, keys, now), t, r, keys, now)
  {}

  /** So nothing of the trade waits any more, and nothing of it rests that the broker lets go. */
  lemma FiredLeavesNothing(a: Db, b: Db, t: nat, r: nat, keys: set<Ref>, now: int)
    requires Fired(a, b, t, r, keys, now)
    ensures NoneWaiting(b, t)
    ensures forall i :: 0 <= i < |b.legs| && b.legs[i].trade == t && b.legs[i].status.Working? ==>
              b.legs[i].orderRef.None? || b.legs[i].orderRef.value !in keys
    ensures forall i :: 0 <= i < |a.legs| && !a.legs[i].status.Staged? && !a.legs[i].status.Working? ==>
              b.legs[i] == a.legs[i]
  {
    forall i | 0 <= i < |a.legs| ensures Dropped(a, t, r, keys, i) || b.legs[i] == a.legs[i] {}
  }

  lemma FiredLeavesNone(d: Db, t: nat, r: nat, keys: set<Ref>, now: int)
    requires WaitsIn(d, r, t)
    ensures NoneWaiting(FireRow(d, t, r, keys, now), t)
  {}

  /** Part way: the first `k` of the rows but `r` done. */
  ghost predicate Withdrawing(a: Db, b: Db, rows: seq<nat>, r: nat, k: nat, now: int) {
    && SameSize(a, b) && b.trades == a.trades && k <= |rows|
    && (forall q :: 0 <= q < |a.tranches| ==>
          b.tranches[q] == (if q != r && q in rows[..k] then a.tranches[q].(state := Withdrawn, since := now)
                            else a.tranches[q]))
    && (forall i :: 0 <= i < |a.legs| ==>
          b.legs[i] == (if OwnedByFirst(a, rows, r, k, i) && a.legs[i].status.Staged?
                        then a.legs[i].(status := Cancelled) else a.legs[i]))
  }

  predicate OwnedByFirst(d: Db, rows: seq<nat>, r: nat, k: nat, i: nat) {
    exists m :: 0 <= m < k <= |rows| && rows[m] != r && rows[m] < |d.tranches| && i in d.tranches[rows[m]].legs
  }

  lemma WithdrawOneMore(a: Db, b: Db, legs: seq<Leg>, rows: seq<nat>, r: nat, k: nat, now: int)
    requires Withdrawing(a, b, rows, r, k, now) && k < |rows| && rows[k] < |a.tranches| && rows[k] !in rows[..k]
    requires rows[k] != r && GaveUp(b.legs, legs, b.tranches[rows[k]].legs, Cancelled)
    ensures Withdrawing(a, SetTranche(b.(legs := legs), rows[k], Withdrawn, now), rows, r, k + 1, now)
  {}

  lemma WithdrawSkip(a: Db, b: Db, rows: seq<nat>, r: nat, k: nat, now: int)
    requires Withdrawing(a, b, rows, r, k, now) && k < |rows| && rows[k] == r
    ensures Withdrawing(a, b, rows, r, k + 1, now)
  {}

  lemma AllWithdrawn(a: Db, b: Db, t: nat, rows: seq<nat>, r: nat, now: int)
    requires IsPending(a, t, rows) && Withdrawing(a, b, rows, r, |rows|, now)
    ensures b == WithdrawAllBut(a, t, r, now)
  {
    var e := WithdrawAllBut(a, t, r, now);
    assert rows[..|rows|] == rows;
    forall i: nat | i < |a.legs| ensures OwnedByFirst(a, rows, r, |rows|, i) <==> OwnedByOther(a, t, r, i) {
      if OwnedByOther(a, t, r, i) {
        var q :| 0 <= q < |a.tranches| && q != r && WaitsIn(a, q, t) && i in a.tranches[q].legs;
        var m :| 0 <= m < |rows| && rows[m] == q;
      }
    }
    assert b.tranches == e.tranches;
    assert b.legs == e.legs;
  }

  // ---- the whole drive ---------------------------------------------------------------------------

  ghost predicate SomeFires(f: Facts, d: Db, t: nat) {
    exists r :: 0 <= r < |d.tranches| && WaitsIn(d, r, t) && Fires(f, d, d.tranches[r])
  }

  /** One drive of a trade's ladder: its first cancel row that fires pulls everything, or else every
      waiting row gets its verdict. */
  ghost predicate LadderDriven(f: Facts, m: Broker, a: Db, b: Db, t: nat) {
    if SomeFires(f, a, t)
    then exists r :: 0 <= r < |a.tranches| && WaitsIn(a, r, t) && Fires(f, a, a.tranches[r])
                     && b == FireRow(a, t, r, m.cancels, f.now)
    else exists rows :: IsPending(a, t, rows) && Driven(f, m, a, b, rows, |rows|)
  }

  lemma SomeFiresWhen(f: Facts, d: Db, t: nat)
    ensures SomeFires(f, d, t) <==> CancelDue(f, d, t)
  {
    if SomeFires(f, d, t) {
      var r :| 0 <= r < |d.tranches| && WaitsIn(d, r, t) && Fires(f, d, d.tranches[r]);
      FiresWhen(f, d, d.tranches[r]);
      assert TouchedCancel(f, d.tranches[r]);
    }
    if CancelDue(f, d, t) {
      var r :| 0 <= r < |d.tranches| && WaitsIn(d, r, t) && TouchedCancel(f, d.tranches[r]);
      FiresWhen(f, d, d.tranches[r]);
      assert Fires(f, d, d.tranches[r]);
    }
  }

  /** Some touched cancel row of the trade fired. */
  ghost predicate OneFired(f: Facts, a: Db, b: Db, t: nat, keys: set<Ref>) {
    exists r: nat :: r < |a.tranches| && WaitsIn(a, r, t) && TouchedCancel(f, a.tranches[r])
                     && Fired(a, b, t, r, keys, f.now)
  }

  /** What one drive does, from the prices: with a cancel row due, one of them fires and nothing is placed;
      otherwise every waiting row is deployed, timed out or left, as its level, its age and the broker say. */
  lemma DriveMeans(f: Facts, m: Broker, a: Db, b: Db, t: nat)
    requires LadderDriven(f, m, a, b, t)
    ensures if CancelDue(f, a, t) then OneFired(f, a, b, t, m.cancels) else RowsDriven(f, m, a, b, t)
  {
    SomeFiresWhen(f, a, t);
    if SomeFires(f, a, t) {
      var r: nat :| r < |a.tranches| && WaitsIn(a, r, t) && Fires(f, a, a.tranches[r])
                    && b == FireRow(a, t, r, m.cancels, f.now);
      FiresWhen(f, a, a.tranches[r]);
      FireMeans(a, t, r, m.cancels, f.now);
    } else {
      var rows :| IsPending(a, t, rows) && Driven(f, m, a, b, rows, |rows|);
      forall r | 0 <= r < |a.tranches| && WaitsIn(a, r, t) ensures RowDriven(f, m, a, b, r) {
        var k :| 0 <= k < |rows| && rows[k] == r;
        OutcomeMeans(f, m, a, b, r);
      }
    }
  }

  /** A fired row is a whole drive. */
  lemma DriveFired(f: Facts, m: Broker, a: Db, b: Db, t: nat, r: nat)
    requires r < |a.tranches| && WaitsIn(a, r, t) && Fires(f, a, a.tranches[r])
    requires b == FireRow(a, t, r, m.cancels, f.now)
    ensures CancelDue(f, a, t) && OneFired(f, a, b, t, m.cancels)
  {
    SomeFiresWhen(f, a, t);
    FiresWhen(f, a, a.tranches[r]);
    FireMeans(a, t, r, m.cancels, f.now);
  }

  lemma NoneFires(f: Facts, d: Db, t: nat, rows: seq<nat>)
    requires IsPending(d, t, rows) && forall k :: 0 <= k < |rows| ==> !Fires(f, d, d.tranches[rows[k]])
    ensures !SomeFires(f, d, t)
  {}
}
