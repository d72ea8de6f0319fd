/** Where the stop of a leg ends up, in numbers, for the rule sets the strategy documents. */
module StopLadder {
  import opened Wrappers
  import opened Prices
  import opened StopRules
  import opened Ratchet

  /** `v` is at least as tight as `w`. */
  predicate AsTight(side: Side, v: real, w: real) {
    match side case Buy => w <= v case Sell => v <= w
  }

  // ---- any rules -----------------------------------------------------------------------------------

  /** Some rule sets off on tick `k`, whose move the broker takes, and puts the stop at `v`. */
  ghost predicate PutAt(plan: Plan, start: Track, polls: seq<Poll>, k: nat, v: real)
    requires k < |polls|
  {
    polls[k].modified && exists j :: 0 <= j < |plan.rules| && RuleAt(plan, start, polls, k, j, v)
  }

  ghost predicate RuleAt(plan: Plan, start: Track, polls: seq<Poll>, k: nat, j: nat, v: real)
    requires k < |polls| && j < |plan.rules|
  {
    && Puts(plan.rules[j], plan.entry, plan.tps, v)
    && match plan.rules[j].trigger
       case OnTp(i) => EverHit(plan, start, polls[..k + 1], i)
       case other => SetOff(other, Shown(plan, polls[k]), {})
  }

  /** `price` is at least `points` from the entry in the trade's favour. */
  predicate MovedBy(plan: Plan, price: real, points: real) {
    match plan.side case Buy => plan.entry + points <= price case Sell => price + points <= plan.entry
  }

  /** The distance of the signal's own stop from the entry. */
  predicate RiskOf(plan: Plan, points: real) {
    && plan.initialSl.Some? && 0.0 < points
    && (plan.initialSl.value + points == plan.entry || plan.entry + points == plan.initialSl.value)
  }

  lemma MovedOnTick(plan: Plan, poll: Poll, d: real)
    ensures Moved(Shown(plan, poll), d) == MovedBy(plan, poll.price, d)
  {}

  lemma AskedIsPut(plan: Plan, start: Track, polls: seq<Poll>, k: nat, v: real)
    requires k < |polls|
    ensures AskedAt(plan, start, polls, k, v) <==> PutAt(plan, start, polls, k, v)
  {
    var so, p := polls[..k + 1], Shown(plan, polls[k]);
    assert so[..k] == polls[..k];
    var hit := HitAfter(plan, Ticks(plan, start, polls[..k]), polls[k]);
    forall j | 0 <= j < |plan.rules|
      ensures Asks(plan.rules[j], p, hit, v) <==> RuleAt(plan, start, polls, k, j, v)
    {
      if plan.rules[j].trigger.OnTp? {
        HitIsEverHit(plan, start, so, plan.rules[j].trigger.index);
      } else {
        SetOffIsTriggered(plan.rules[j].trigger, p, hit);
        SetOffIsTriggered(plan.rules[j].trigger, p, {});
      }
    }
  }

  ghost predicate SomewherePut(plan: Plan, start: Track, polls: seq<Poll>, v: real) {
    exists k :: 0 <= k < |polls| && PutAt(plan, start, polls, k, v)
  }

  /** For any rules: the stop is the tightest of the one at the start and all those that some rule put it at on
      some tick whose move the broker took. */
  lemma StopInNumbers(plan: Plan, start: Track, polls: seq<Poll>)
    ensures var sl := Ticks(plan, start, polls).sl;
            && (sl == start.sl || SomewherePut(plan, start, polls, sl))
            && AsTight(plan.side, sl, start.sl)
            && forall v :: SomewherePut(plan, start, polls, v) ==> AsTight(plan.side, sl, v)
  {
    var sl := Ticks(plan, start, polls).sl;
    StopIsTightest(plan, start, polls, sl);
    if sl != start.sl {
      var k :| 0 <= k < |polls| && AskedAt(plan, start, polls, k, sl);
      AskedIsPut(plan, start, polls, k, sl);
      assert PutAt(plan, start, polls, k, sl);
    }
    forall v | SomewherePut(plan, start, polls, v) ensures AsTight(plan.side, sl, v) {
      var k :| 0 <= k < |polls| && PutAt(plan, start, polls, k, v);
      AskedIsPut(plan, start, polls, k, v);
      assert AskedAt(plan, start, polls, k, v);
      StopIsTightest(plan, start, polls, v);
    }
  }

  /** One evaluation in numbers: the move is where some rule that is set off puts the stop, and beyond the stop
      there is. */
  lemma MoveInNumbers(p: Position, rules: seq<Rule>, hit: set<int>)
    requires NewStop(p, rules, hit).Some?
    ensures var move := NewStop(p, rules, hit).value;
            && (p.sl.Some? ==> move != p.sl.value && AsTight(p.side, move, p.sl.value))
            && exists j :: 0 <= j < |rules| && Asks(rules[j], p, hit, move)
  {}

  /** No rule that is set off puts the stop beyond both the move and the stop there is. */
  lemma NoTighterMove(p: Position, rules: seq<Rule>, hit: set<int>, j: nat, v: real)
    requires j < |rules| && Asks(rules[j], p, hit, v)
    ensures var move := NewStop(p, rules, hit);
            (move.Some? && AsTight(p.side, move.value, v)) || (p.sl.Some? && AsTight(p.side, p.sl.value, v))
  {
    if Improves(p.side, v, p.sl) {
      assert !Tighter(p.side, v, NewStop(p, rules, hit).value);
    }
  }

  // ---- the documented ladder -----------------------------------------------------------------------

  /** TP1 puts the stop at the entry, and every later TP at the one before it. */
  function LadderRule(k: nat): Rule {
    Rule(OnTp(k), if k == 1 then ToEntry else ToPreviousTp)
  }

  function LadderRules(n: nat): seq<Rule> { seq(n, j requires 0 <= j < n => LadderRule(j + 1)) }

  /** The targets lie beyond the entry, each beyond the one before. */
  ghost predicate InOrder(plan: Plan, n: nat) {
    && (forall k :: 1 <= k <= n ==> k in plan.tps)
    && (forall k :: 1 <= k <= n ==> if plan.side.Buy? then plan.entry < plan.tps[k] else plan.tps[k] < plan.entry)
    && (forall j, k :: 1 <= j < k <= n ==>
          if plan.side.Buy? then plan.tps[j] < plan.tps[k] else plan.tps[k] < plan.tps[j])
  }

  /** TP `m` is the highest of the `n` ever hit; 0 when none was. */
  ghost predicate Highest(plan: Plan, start: Track, polls: seq<Poll>, n: nat, m: nat) {
    && m <= n && (m > 0 ==> EverHit(plan, start, polls, m))
    && forall k :: m < k <= n ==> !EverHit(plan, start, polls, k)
  }

  lemma {:induction false} SomeHighest(plan: Plan, start: Track, polls: seq<Poll>, n: nat) returns (m: nat)
    ensures Highest(plan, start, polls, n, m)
  {
    if n == 0 || EverHit(plan, start, polls, n) {
      m := n;
    } else {
      m := SomeHighest(plan, start, polls, n - 1);
    }
  }

  /** Where TP `m` puts the stop. */
  function RungStop(plan: Plan, m: nat): real
    requires m > 0 && (m > 1 ==> m - 1 in plan.tps)
  {
    if m == 1 then plan.entry else plan.tps[m - 1]
  }

  lemma LadderEarns(plan: Plan, start: Track, polls: seq<Poll>, n: nat, v: real)
    requires plan.rules == LadderRules(n) && InOrder(plan, n)
    ensures Earned(plan, start, polls, v)
       <==> exists k: nat :: 1 <= k <= n && EverHit(plan, start, polls, k) && RungStop(plan, k) == v
  {
    if Earned(plan, start, polls, v) {
      var j :| 0 <= j < n && EarnedBy(plan, start, polls, j, v);
      assert plan.rules[j] == LadderRule(j + 1);
      assert EverHit(plan, start, polls, j + 1) && RungStop(plan, j + 1) == v;
    }
    if k: nat :| 1 <= k <= n && EverHit(plan, start, polls, k) && RungStop(plan, k) == v {
      assert plan.rules[k - 1] == LadderRule(k);
      assert EarnedBy(plan, start, polls, k - 1, v);
    }
  }

  /** The documented ladder: as of the last tick whose move the broker took, the stop is the tighter of the one
      at the start and that of the highest TP ever hit: the entry for TP1, the TP before it for any other. */
  lemma LadderHolds(plan: Plan, start: Track, polls: seq<Poll>, n: nat, m: nat)
    requires plan.rules == LadderRules(n) && InOrder(plan, n)
    requires Highest(plan, start, polls[..LastTaken(polls)], n, m)
    ensures var sl := Ticks(plan, start, polls).sl;
            if LastTaken(polls) == 0 || m == 0 then sl == start.sl
            else
              var x := if m == 1 then plan.entry else plan.tps[m - 1];
              && (plan.side == Buy ==> sl == if start.sl < x then x else start.sl)
              && (plan.side == Sell ==> sl == if x < start.sl then x else start.sl)
  {
    var so, sl := polls[..LastTaken(polls)], Ticks(plan, start, polls).sl;
    assert forall j :: 0 <= j < n ==> plan.rules[j] == LadderRule(j + 1);
    ClosedForm(plan, start, polls);
    if LastTaken(polls) > 0 {
      LadderEarns(plan, start, so, n, sl);
      if m > 0 {
        LadderEarns(plan, start, so, n, RungStop(plan, m));
        forall k: nat | 1 <= k <= n && EverHit(plan, start, so, k)
          ensures AsTight(plan.side, RungStop(plan, m), RungStop(plan, k))
        {}
      }
    }
  }

  /** A lone rule on a move of `points`, to the entry: the stop is there as soon as a tick whose move the broker
      took had the price that far in favour, if that is tighter, and until then it is where it was. */
  lemma MoveLocksEntry(plan: Plan, start: Track, polls: seq<Poll>, points: real)
    requires plan.rules == [Rule(OnMove(points), ToEntry)]
    ensures var sl, x := Ticks(plan, start, polls).sl, plan.entry;
            var moved := exists k :: 0 <= k < |polls| && polls[k].modified && MovedBy(plan, polls[k].price, points);
            sl == if moved && !AsTight(plan.side, start.sl, x) then x else start.sl
  {
    StopInNumbers(plan, start, polls);
    forall k, v | 0 <= k < |polls|
      ensures PutAt(plan, start, polls, k, v)
         <==> polls[k].modified && v == plan.entry && MovedBy(plan, polls[k].price, points)
    {
      MovedOnTick(plan, polls[k], points);
      assert RuleAt(plan, start, polls, k, 0, v) <==> v == plan.entry && MovedBy(plan, polls[k].price, points);
    }
    if k :| 0 <= k < |polls| && polls[k].modified && MovedBy(plan, polls[k].price, points) {
      assert PutAt(plan, start, polls, k, plan.entry);
    }
  }

  lemma RMoves(plan: Plan, start: Track, polls: seq<Poll>, k: nat, r: real, points: real, v: real)
    requires k < |polls| && plan.rules == [Rule(OnR(r), ToEntry)] && RiskOf(plan, points)
    ensures RuleAt(plan, start, polls, k, 0, v) <==> v == plan.entry && MovedBy(plan, polls[k].price, r * points)
  {
    var p := Shown(plan, polls[k]);
    MovedOnTick(plan, polls[k], r * points);
    assert Risks(p, points);
    if RuleAt(plan, start, polls, k, 0, v) {
      var x: real :| Risks(p, x) && Moved(p, r * x);
      assert x == points;
    }
  }

  /** The same on a move of `r` times the signal's own risk. */
  lemma RLocksEntry(plan: Plan, start: Track, polls: seq<Poll>, r: real, points: real)
    requires plan.rules == [Rule(OnR(r), ToEntry)] && RiskOf(plan, points)
    ensures var sl, x := Ticks(plan, start, polls).sl, plan.entry;
            var moved := exists k :: 0 <= k < |polls| && polls[k].modified && MovedBy(plan, polls[k].price, r * points);
            sl == if moved && !AsTight(plan.side, start.sl, x) then x else start.sl
  {
    StopInNumbers(plan, start, polls);
    forall k, v | 0 <= k < |polls|
      ensures PutAt(plan, start, polls, k, v)
         <==> polls[k].modified && v == plan.entry && MovedBy(plan, polls[k].price, r * points)
    {
      RMoves(plan, start, polls, k, r, points, v);
    }
    if k :| 0 <= k < |polls| && polls[k].modified && MovedBy(plan, polls[k].price, r * points) {
      assert PutAt(plan, start, polls, k, plan.entry);
    }
  }
}
