/** The declarative stop rules: triggers, targets, and the engine that keeps the tightest stop. */
module StopRules {
  import opened Wrappers
  import opened Prices

  datatype Trigger = OnTp(index: int) | OnMove(points: real) | OnR(r: real) | NoTrigger

  datatype Target = ToEntry | ToNumber(value: Option<real>) | ToTp(index: int) | ToPreviousTp | NoTarget

  datatype Rule = Rule(trigger: Trigger, target: Target)

  /** What one evaluation sees. `initialSl` is the signal's own stop, never the ratcheted one. */
  datatype Position = Position(side: Side, entry: real, sl: Option<real>, price: real,
                               tps: map<int, real>, initialSl: Option<real>)

  function Favourable(p: Position): real {
    if p.side.Buy? then p.price - p.entry else p.entry - p.price
  }

  predicate Triggered(t: Trigger, p: Position, hit: set<int>) {
    match t
    case OnTp(i) => i in hit
    case OnMove(points) => Favourable(p) >= points
    case OnR(r) =>
      p.initialSl.Some? && Abs(p.entry - p.initialSl.value) > 0.0
      && Favourable(p) >= r * Abs(p.entry - p.initialSl.value)
    case NoTrigger => false
  }

  function TpLevel(tps: map<int, real>, i: int): Option<real> {
    if i in tps then Some(tps[i]) else None
  }

  function TargetSl(r: Rule, p: Position): Option<real> {
    match r.target
    case ToEntry => Some(p.entry)
    case ToNumber(v) => v
    case ToTp(i) => TpLevel(p.tps, i)
    case ToPreviousTp => if r.trigger.OnTp? then TpLevel(p.tps, r.trigger.index - 1) else None
    case NoTarget => None
  }

  predicate Tighter(side: Side, a: real, b: real) {
    if side.Buy? then a > b else a < b
  }

  predicate Improves(side: Side, a: real, cur: Option<real>) {
    cur.None? || Tighter(side, a, cur.value)
  }

  /** The price is at least `points` from the entry in the trade's favour. */
  predicate Moved(p: Position, points: real) {
    match p.side case Buy => p.entry + points <= p.price case Sell => p.price + points <= p.entry
  }

  /** The signal's own risk, in points, is known and not nothing. */
  predicate Risks(p: Position, points: real) {
    && p.initialSl.Some? && 0.0 < points
    && (p.initialSl.value + points == p.entry || p.entry + points == p.initialSl.value)
  }

  /** What sets a rule off: its TP hit, the price so many points in favour, or so many times the risk. */
  ghost predicate SetOff(t: Trigger, p: Position, hit: set<int>) {
    match t
    case OnTp(i) => i in hit
    case OnMove(points) => Moved(p, points)
    case OnR(r) => exists points: real :: Risks(p, points) && Moved(p, r * points)
    case NoTrigger => false
  }

  /** Where a rule puts the stop: at the entry, at a number, at a TP's level, or at the level of the TP before
      the one that set it off. */
  predicate Puts(r: Rule, entry: real, tps: map<int, real>, v: real) {
    match r.target
    case ToEntry => v == entry
    case ToNumber(n) => n == Some(v)
    case ToTp(i) => i in tps && v == tps[i]
    case ToPreviousTp => r.trigger.OnTp? && (r.trigger.index - 1) in tps && v == tps[r.trigger.index - 1]
    case NoTarget => false
  }

  /** Stop `v` is what rule `r` asks for now. */
  ghost predicate Asks(r: Rule, p: Position, hit: set<int>, v: real) {
    SetOff(r.trigger, p, hit) && Puts(r, p.entry, p.tps, v)
  }

  lemma RiskIsDistance(p: Position, points: real)
    ensures Risks(p, points)
       <==> p.initialSl.Some? && points == Abs(p.entry - p.initialSl.value) && points > 0.0
  {}

  lemma MovedIsFavourable(p: Position, points: real)
    ensures Moved(p, points) <==> Favourable(p) >= points
  {}

  lemma RSetsOff(r: real, p: Position, hit: set<int>, points: real)
    requires Risks(p, points)
    ensures Triggered(OnR(r), p, hit) <==> Moved(p, r * points)
  {
    RiskIsDistance(p, points);
    MovedIsFavourable(p, r * points);
    assert Abs(p.entry - p.initialSl.value) == points;
  }

  lemma SetOffIsTriggered(t: Trigger, p: Position, hit: set<int>)
    ensures SetOff(t, p, hit) <==> Triggered(t, p, hit)
  {
    if t.OnR? {
      forall points: real | Risks(p, points) ensures Triggered(t, p, hit) <==> Moved(p, t.r * points) {
        RSetsOff(t.r, p, hit, points);
      }
      if Triggered(t, p, hit) {
        RiskIsDistance(p, Abs(p.entry - p.initialSl.value));
      }
    }
  }

  lemma PutsIsTarget(r: Rule, p: Position, v: real)
    ensures Puts(r, p.entry, p.tps, v) <==> TargetSl(r, p) == Some(v)
  {}

  /** The stop the engine settles on, reading the rules in order. */
  function NewStop(p: Position, rules: seq<Rule>, hit: set<int>): (best: Option<real>)
    ensures best.Some? ==> Improves(p.side, best.value, p.sl)
    ensures best.Some? ==> exists i :: 0 <= i < |rules| && Asks(rules[i], p, hit, best.value)
    ensures forall i, v :: 0 <= i < |rules| && Asks(rules[i], p, hit, v) && Improves(p.side, v, p.sl)
              ==> best.Some? && !Tighter(p.side, v, best.value)
  {
    if rules == [] then None
    else
      var last := |rules| - 1;
      var best := NewStop(p, rules[..last], hit);
      assert forall i :: 0 <= i < last ==> rules[..last][i] == rules[i];
      SetOffIsTriggered(rules[last].trigger, p, hit);
      if !Triggered(rules[last].trigger, p, hit) then best
      else
        var cand := TargetSl(rules[last], p);
        if cand.None? || !Improves(p.side, cand.value, p.sl) then best
        else if best.None? || Improves(p.side, cand.value, best)
        then (assert Asks(rules[last], p, hit, cand.value); cand)
        else best
  }

  /** Some rule asks for `v`, and it improves on the stop the engine was given. */
  ghost predicate Offers(p: Position, rules: seq<Rule>, hit: set<int>, v: real) {
    Improves(p.side, v, p.sl) && exists i :: 0 <= i < |rules| && Asks(rules[i], p, hit, v)
  }

  /** The engine compares with the stop it is given and no other. So its move is looser than the stop `told`
      to the broker before exactly when something is offered, but nothing as tight as that. */
  lemma LoosensExactly(p: Position, rules: seq<Rule>, hit: set<int>, told: real)
    ensures var move := NewStop(p, rules, hit);
            (move.Some? && Tighter(p.side, told, move.value))
            <==> ((exists v :: Offers(p, rules, hit, v))
                  && forall v :: Offers(p, rules, hit, v) ==> Tighter(p.side, told, v))
  {
    var move := NewStop(p, rules, hit);
    if move.Some? {
      assert Offers(p, rules, hit, move.value);
    }
    forall v | Offers(p, rules, hit, v) ensures move.Some? && !Tighter(p.side, v, move.value) {
      var i :| 0 <= i < |rules| && Asks(rules[i], p, hit, v);
    }
  }

  /** The engine's loop over the rules. */
  method Evaluate(p: Position, rules: seq<Rule>, hit: set<int>) returns (best: Option<real>)
    ensures best == NewStop(p, rules, hit)
  {
    best := None;
    for i := 0 to |rules|
      invariant best == NewStop(p, rules[..i], hit)
    {
      assert rules[..i + 1][..i] == rules[..i];
      if Triggered(rules[i].trigger, p, hit) {
        var cand := TargetSl(rules[i], p);
        if cand.Some? && Improves(p.side, cand.value, p.sl) {
          if best.None? || Improves(p.side, cand.value, best) {
            best := cand;
          }
        }
      }
    }
    assert rules[..|rules|] == rules;
  }
}

/** One leg's stop over a whole run of monitor ticks. */
module Ratchet {
  import opened Wrappers
  import opened Prices
  import opened StopRules

  /** What one tick brings: the closing-side price, the (side-adjusted) candle extremes, the TP
      indices of legs closed `tp_hit` so far as newly seen, and whether the broker took a move. */
  datatype Poll = Poll(price: real, hi: Option<real>, lo: Option<real>, closedTps: set<int>, modified: bool)

  /** The part of a trade that does not change while the leg is open. */
  datatype Plan = Plan(side: Side, entry: real, tps: map<int, real>, initialSl: Option<real>, rules: seq<Rule>)

  datatype Track = Track(mfe: Option<real>, achieved: set<int>, sl: real)

  function HitAfter(plan: Plan, t: Track, poll: Poll): set<int> {
    LevelsReached(plan.side, NextMfe(plan.side, t.mfe, poll.price, poll.hi, poll.lo), plan.tps)
    + t.achieved + poll.closedTps
  }

  /** What the rules see on the tick, the stop they are to improve on included. */
  function Facing(plan: Plan, t: Track, poll: Poll): Position {
    Position(plan.side, plan.entry, Some(t.sl), poll.price, plan.tps, plan.initialSl)
  }

  /** The stop the broker is asked for on the tick, if any. */
  function Wanted(plan: Plan, t: Track, poll: Poll): Option<real> {
    NewStop(Facing(plan, t, poll), plan.rules, HitAfter(plan, t, poll))
  }

  function Tick(plan: Plan, t: Track, poll: Poll): Track {
    var mfe := NextMfe(plan.side, t.mfe, poll.price, poll.hi, poll.lo);
    var move := Wanted(plan, t, poll);
    Track(Some(mfe), t.achieved + poll.closedTps, if move.Some? && poll.modified then move.value else t.sl)
  }

  /** The ticks `polls` from `start`; a fresh leg starts at Track(None, {}, its stop). */
  function Ticks(plan: Plan, start: Track, polls: seq<Poll>): Track {
    if polls == [] then start else Tick(plan, Ticks(plan, start, polls[..|polls| - 1]), polls[|polls| - 1])
  }

  /** Whatever the rules, the prices and the broker do, the stop never moves back. */
  lemma {:induction false} NeverLoosens(plan: Plan, start: Track, polls: seq<Poll>, k: nat)
    requires k <= |polls|
    ensures !Tighter(plan.side, Ticks(plan, start, polls[..k]).sl, Ticks(plan, start, polls).sl)
  {
    if k == |polls| {
      assert polls[..k] == polls;
    } else {
      var init := polls[..|polls| - 1];
      assert init[..k] == polls[..k];
      NeverLoosens(plan, start, init, k);
    }
  }

  // ---- what has been seen ------------------------------------------------------------------------

  /** Price `x` is at level `tp`, or beyond it in the direction of the trade. */
  predicate Beyond(side: Side, x: real, tp: real) {
    match side case Buy => tp <= x case Sell => x <= tp
  }

  /** The start already knew of level `tp`. */
  predicate Knew(side: Side, start: Track, tp: real) {
    start.mfe.Some? && Beyond(side, start.mfe.value, tp)
  }

  /** Tick `k` saw level `tp`: at its quote, or (unless nothing is latched yet) at its candle's extreme. */
  predicate Sees(side: Side, start: Track, polls: seq<Poll>, k: nat, tp: real)
    requires k < |polls|
  {
    Beyond(side, polls[k].price, tp)
    || ((k > 0 || start.mfe.Some?)
        && match side
           case Buy => polls[k].hi.Some? && tp <= polls[k].hi.value
           case Sell => polls[k].lo.Some? && polls[k].lo.value <= tp)
  }

  /** Tick `k` found TP `i` reached: it saw its level, or a leg closed at it. */
  predicate HitBy(plan: Plan, start: Track, polls: seq<Poll>, k: nat, i: int)
    requires k < |polls|
  {
    i in polls[k].closedTps || (i in plan.tps && Sees(plan.side, start, polls, k, plan.tps[i]))
  }

  /** TP `i` was ever reached: known at the start, or found by some tick. */
  ghost predicate EverHit(plan: Plan, start: Track, polls: seq<Poll>, i: int) {
    || i in start.achieved
    || (i in plan.tps && Knew(plan.side, start, plan.tps[i]))
    || exists k :: 0 <= k < |polls| && HitBy(plan, start, polls, k, i)
  }

  lemma LatchAdds(side: Side, prev: Option<real>, poll: Poll, tp: real)
    ensures ReachedTarget(side, NextMfe(side, prev, poll.price, poll.hi, poll.lo), tp)
       <==> (|| ReachedTarget(side, poll.price, tp)
             || (prev.Some? && ReachedTarget(side, prev.value, tp))
             || (prev.Some? && var extreme := if side.Buy? then poll.hi else poll.lo;
                               extreme.Some? && ReachedTarget(side, extreme.value, tp)))
  {}

  /** The latched price remembers exactly the levels known at the start or seen by some tick. */
  lemma {:induction false} MfeRemembers(plan: Plan, start: Track, polls: seq<Poll>, tp: real)
    ensures var t := Ticks(plan, start, polls);
            && (polls != [] ==> t.mfe.Some?)
            && (Knew(plan.side, t, tp)
                <==> Knew(plan.side, start, tp) || exists k :: 0 <= k < |polls| && Sees(plan.side, start, polls, k, tp))
  {
    if polls != [] {
      var n := |polls| - 1;
      var init := polls[..n];
      MfeRemembers(plan, start, init, tp);
      assert forall k :: 0 <= k < n ==> Sees(plan.side, start, init, k, tp) == Sees(plan.side, start, polls, k, tp);
      var before := Ticks(plan, start, init);
      assert before.mfe.Some? <==> n > 0 || start.mfe.Some?;
      LatchAdds(plan.side, before.mfe, polls[n], tp);
      var extreme := if plan.side.Buy? then polls[n].hi else polls[n].lo;
      assert Sees(plan.side, start, polls, n, tp)
        <==> (ReachedTarget(plan.side, polls[n].price, tp)
              || (before.mfe.Some? && extreme.Some? && ReachedTarget(plan.side, extreme.value, tp)));
    }
  }

  lemma {:induction false} AchievedRemembers(plan: Plan, start: Track, polls: seq<Poll>, i: int)
    ensures i in Ticks(plan, start, polls).achieved
       <==> i in start.achieved || exists k :: 0 <= k < |polls| && i in polls[k].closedTps
  {
    if polls != [] {
      var init := polls[..|polls| - 1];
      AchievedRemembers(plan, start, init, i);
      assert Ticks(plan, start, polls).achieved
          == Ticks(plan, start, init).achieved + polls[|polls| - 1].closedTps;
      assert forall k :: 0 <= k < |init| ==> init[k] == polls[k];
    }
  }

  /** The set the last tick evaluates its rules on is exactly "ever hit". */
  lemma HitIsEverHit(plan: Plan, start: Track, polls: seq<Poll>, i: int)
    requires polls != []
    ensures var n := |polls| - 1;
            i in HitAfter(plan, Ticks(plan, start, polls[..n]), polls[n]) <==> EverHit(plan, start, polls, i)
  {
    AchievedRemembers(plan, start, polls, i);
    if i in plan.tps {
      MfeRemembers(plan, start, polls, plan.tps[i]);
    }
    assert forall k :: 0 <= k < |polls| ==>
        (HitBy(plan, start, polls, k, i)
         <==> i in polls[k].closedTps || (i in plan.tps && Sees(plan.side, start, polls, k, plan.tps[i])));
  }

  // ---- the stop, for any rules -------------------------------------------------------------------

  /** What tick `k` shows the rules; no target depends on the stop it finds. */
  function Shown(plan: Plan, poll: Poll): Position {
    Position(plan.side, plan.entry, None, poll.price, plan.tps, plan.initialSl)
  }

  /** Some rule asks for stop `v` on tick `k`, and the broker takes the tick's move. */
  ghost predicate AskedAt(plan: Plan, start: Track, polls: seq<Poll>, k: nat, v: real)
    requires k < |polls|
  {
    polls[k].modified
    && exists j :: 0 <= j < |plan.rules|
         && Asks(plan.rules[j], Shown(plan, polls[k]), HitAfter(plan, Ticks(plan, start, polls[..k]), polls[k]), v)
  }

  ghost predicate Asked(plan: Plan, start: Track, polls: seq<Poll>, v: real) {
    exists k :: 0 <= k < |polls| && AskedAt(plan, start, polls, k, v)
  }

  lemma AskedGrows(plan: Plan, start: Track, polls: seq<Poll>, v: real)
    requires polls != []
    ensures var n := |polls| - 1;
            Asked(plan, start, polls, v) <==> Asked(plan, start, polls[..n], v) || AskedAt(plan, start, polls, n, v)
  {
    var n := |polls| - 1;
    forall k | 0 <= k < n ensures AskedAt(plan, start, polls[..n], k, v) <==> AskedAt(plan, start, polls, k, v) {
      assert polls[..n][..k] == polls[..k];
    }
  }

  /** One tick: the stop becomes the tightest of what it was and what is asked for, if the broker takes it. */
  lemma TickTightens(plan: Plan, t: Track, poll: Poll, v: real)
    ensures var sl, hit := Tick(plan, t, poll).sl, HitAfter(plan, t, poll);
            && !Tighter(plan.side, t.sl, sl)
            && (sl == t.sl
                || (poll.modified
                    && exists j :: 0 <= j < |plan.rules| && Asks(plan.rules[j], Shown(plan, poll), hit, sl)))
            && (forall j :: 0 <= j < |plan.rules| && poll.modified && Asks(plan.rules[j], Shown(plan, poll), hit, v)
                  ==> !Tighter(plan.side, v, sl))
  {
    var p, hit := Shown(plan, poll).(sl := Some(t.sl)), HitAfter(plan, t, poll);
    var move := NewStop(p, plan.rules, hit);
    forall j, w | 0 <= j < |plan.rules|
      ensures Asks(plan.rules[j], p, hit, w) <==> Asks(plan.rules[j], Shown(plan, poll), hit, w)
    {
      SetOffIsTriggered(plan.rules[j].trigger, p, hit);
      SetOffIsTriggered(plan.rules[j].trigger, Shown(plan, poll), hit);
    }
    if move.Some? {
      var j :| 0 <= j < |plan.rules| && Asks(plan.rules[j], p, hit, move.value);
      assert Asks(plan.rules[j], Shown(plan, poll), hit, move.value);
    }
    forall j | 0 <= j < |plan.rules| && poll.modified && Asks(plan.rules[j], Shown(plan, poll), hit, v)
      ensures !Tighter(plan.side, v, Tick(plan, t, poll).sl)
    {
      assert Asks(plan.rules[j], p, hit, v);
      assert Improves(plan.side, v, p.sl) ==> move.Some? && !Tighter(plan.side, v, move.value);
    }
  }

  /** Whatever the rules: the stop is the tightest of the initial one and every stop asked for on a tick
      whose move the broker took. */
  lemma {:induction false} StopIsTightest(plan: Plan, start: Track, polls: seq<Poll>, v: real)
    ensures var sl := Ticks(plan, start, polls).sl;
            && (sl == start.sl || Asked(plan, start, polls, sl))
            && !Tighter(plan.side, start.sl, sl)
            && (Asked(plan, start, polls, v) ==> !Tighter(plan.side, v, sl))
  {
    if polls != [] {
      var n := |polls| - 1;
      var init := polls[..n];
      var before, sl := Ticks(plan, start, init), Ticks(plan, start, polls).sl;
      StopIsTightest(plan, start, init, v);
      TickTightens(plan, before, polls[n], v);
      AskedGrows(plan, start, polls, v);
      AskedGrows(plan, start, polls, sl);
    }
  }

  // ---- the stop, for TP rules --------------------------------------------------------------------

  /** The stops the run has earned: the targets of every rule whose TP was ever hit. */
  ghost predicate Earned(plan: Plan, start: Track, polls: seq<Poll>, v: real) {
    exists j :: 0 <= j < |plan.rules| && EarnedBy(plan, start, polls, j, v)
  }

  ghost predicate EarnedBy(plan: Plan, start: Track, polls: seq<Poll>, j: nat, v: real)
    requires j < |plan.rules|
  {
    var r := plan.rules[j];
    r.trigger.OnTp? && EverHit(plan, start, polls, r.trigger.index) && Puts(r, plan.entry, plan.tps, v)
  }

  predicate TpOnly(plan: Plan) {
    forall j :: 0 <= j < |plan.rules| ==> plan.rules[j].trigger.OnTp?
  }

  lemma HitGrows(plan: Plan, start: Track, polls: seq<Poll>, k: nat, i: int)
    requires k <= |polls| && EverHit(plan, start, polls[..k], i)
    ensures EverHit(plan, start, polls, i)
  {
    if m: nat :| m < k && HitBy(plan, start, polls[..k], m, i) {
      assert HitBy(plan, start, polls, m, i);
    }
  }

  /** With TP rules only, a stop was asked for on some tick exactly when it was earned by then. */
  lemma AskedIsEarned(plan: Plan, start: Track, polls: seq<Poll>, k: nat, v: real)
    requires TpOnly(plan) && k < |polls| && polls[k].modified
    ensures AskedAt(plan, start, polls, k, v) <==> Earned(plan, start, polls[..k + 1], v)
  {
    var so := polls[..k + 1];
    assert so[..k] == polls[..k];
    forall j | 0 <= j < |plan.rules|
      ensures EarnedBy(plan, start, so, j, v)
         <==> Asks(plan.rules[j], Shown(plan, polls[k]), HitAfter(plan, Ticks(plan, start, polls[..k]), polls[k]), v)
    {
      HitIsEverHit(plan, start, so, plan.rules[j].trigger.index);
    }
  }

  lemma EarnedGrows(plan: Plan, start: Track, polls: seq<Poll>, k: nat, v: real)
    requires k <= |polls| && Earned(plan, start, polls[..k], v)
    ensures Earned(plan, start, polls, v)
  {
    var j :| 0 <= j < |plan.rules| && EarnedBy(plan, start, polls[..k], j, v);
    HitGrows(plan, start, polls, k, plan.rules[j].trigger.index);
    assert EarnedBy(plan, start, polls, j, v);
  }

  /** `sl` is the tightest of the initial stop and every earned stop. */
  ghost predicate IsTightest(plan: Plan, start: Track, polls: seq<Poll>, sl: real) {
    && (sl == start.sl || Earned(plan, start, polls, sl))
    && !Tighter(plan.side, start.sl, sl)
    && forall v :: Earned(plan, start, polls, v) ==> !Tighter(plan.side, v, sl)
  }

  /** The ticks up to the last one whose move the broker takes. */
  function LastTaken(polls: seq<Poll>): (n: nat)
    ensures n <= |polls| && (n > 0 ==> polls[n - 1].modified)
    ensures forall k :: n <= k < |polls| ==> !polls[k].modified
  {
    if polls == [] then 0
    else if polls[|polls| - 1].modified then |polls|
    else LastTaken(polls[..|polls| - 1])
  }

  lemma {:induction false} UntakenKeeps(plan: Plan, start: Track, polls: seq<Poll>, n: nat)
    requires n <= |polls| && forall k :: n <= k < |polls| ==> !polls[k].modified
    ensures Ticks(plan, start, polls).sl == Ticks(plan, start, polls[..n]).sl
    decreases |polls|
  {
    if n == |polls| {
      assert polls[..n] == polls;
    } else {
      var init := polls[..|polls| - 1];
      assert init[..n] == polls[..n];
      UntakenKeeps(plan, start, init, n);
    }
  }

  lemma EarnedIsKept(plan: Plan, start: Track, polls: seq<Poll>, v: real)
    requires TpOnly(plan) && polls != [] && polls[|polls| - 1].modified && Earned(plan, start, polls, v)
    ensures !Tighter(plan.side, v, Ticks(plan, start, polls).sl)
  {
    var n := |polls| - 1;
    assert polls[..n + 1] == polls;
    AskedIsEarned(plan, start, polls, n, v);
    StopIsTightest(plan, start, polls, v);
  }

  lemma KeptIsEarned(plan: Plan, start: Track, polls: seq<Poll>)
    requires TpOnly(plan) && Ticks(plan, start, polls).sl != start.sl
    ensures Earned(plan, start, polls, Ticks(plan, start, polls).sl)
  {
    var sl := Ticks(plan, start, polls).sl;
    StopIsTightest(plan, start, polls, sl);
    var k :| 0 <= k < |polls| && AskedAt(plan, start, polls, k, sl);
    AskedIsEarned(plan, start, polls, k, sl);
    EarnedGrows(plan, start, polls, k + 1, sl);
  }

  lemma ClosedWhenTaken(plan: Plan, start: Track, polls: seq<Poll>)
    requires TpOnly(plan) && polls != [] && polls[|polls| - 1].modified
    ensures IsTightest(plan, start, polls, Ticks(plan, start, polls).sl)
  {
    var sl := Ticks(plan, start, polls).sl;
    StopIsTightest(plan, start, polls, sl);
    if sl != start.sl {
      KeptIsEarned(plan, start, polls);
    }
    forall v | Earned(plan, start, polls, v) ensures !Tighter(plan.side, v, sl) {
      EarnedIsKept(plan, start, polls, v);
    }
  }

  /** Closed form: with TP rules only, the stop is the tightest of the initial stop and the targets of all
      TPs reached by the last tick whose move the broker took; if there is none, it is the initial stop. */
  lemma ClosedForm(plan: Plan, start: Track, polls: seq<Poll>)
    requires TpOnly(plan)
    ensures var n, sl := LastTaken(polls), Ticks(plan, start, polls).sl;
            if n == 0 then sl == start.sl else IsTightest(plan, start, polls[..n], sl)
  {
    var n := LastTaken(polls);
    UntakenKeeps(plan, start, polls, n);
    if n == 0 {
      assert polls[..0] == [];
    } else {
      ClosedWhenTaken(plan, start, polls[..n]);
    }
  }

  lemma SameEarned(plan: Plan, s: Track, a: seq<Poll>, r: Track, b: seq<Poll>, v: real)
    requires Earned(plan, s, a, v) && forall i :: EverHit(plan, s, a, i) ==> EverHit(plan, r, b, i)
    ensures Earned(plan, r, b, v)
  {
    var j :| 0 <= j < |plan.rules| && EarnedBy(plan, s, a, j, v);
    assert EarnedBy(plan, r, b, j, v);
  }

  lemma TightestIsLooser(plan: Plan, s: Track, a: seq<Poll>, x: real, r: Track, b: seq<Poll>, y: real)
    requires IsTightest(plan, s, a, x) && IsTightest(plan, r, b, y) && s.sl == r.sl
    requires forall i :: EverHit(plan, s, a, i) ==> EverHit(plan, r, b, i)
    ensures !Tighter(plan.side, x, y)
  {
    if x != s.sl {
      SameEarned(plan, s, a, r, b, x);
    }
  }

  /** The polling schedule does not matter: two runs whose last moves were taken and that ever hit the same
      TPs end on one stop. */
  lemma ScheduleIndependent(plan: Plan, s: Track, a: seq<Poll>, r: Track, b: seq<Poll>)
    requires TpOnly(plan) && s.sl == r.sl && a != [] && b != [] && a[|a| - 1].modified && b[|b| - 1].modified
    requires forall i :: EverHit(plan, s, a, i) == EverHit(plan, r, b, i)
    ensures Ticks(plan, s, a).sl == Ticks(plan, r, b).sl
  {
    ClosedWhenTaken(plan, s, a);
    ClosedWhenTaken(plan, r, b);
    TightestIsLooser(plan, s, a, Ticks(plan, s, a).sl, r, b, Ticks(plan, r, b).sl);
    TightestIsLooser(plan, r, b, Ticks(plan, r, b).sl, s, a, Ticks(plan, s, a).sl);
  }
}
