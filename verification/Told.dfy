/**
 The stop the broker was told last, read off the events of a run: when it is the stored one, and exactly when
 the next move loosens it. A move taken just before the process dies is an edit followed by the crash.
 */
module ToldStops {
  import opened Wrappers
  import opened Prices
  import opened StopRules
  import Ratchet
  import opened Rows
  import opened Reconcile
  import opened Links
  import opened Book
  import opened Invariants
  import opened Steps
  import opened Ladder
  import opened RollUps
  import opened TickRules
  import opened StopRuns
  import opened Weaving

  /** Event `e` moves the stop of leg `i`: the broker took the move and the session holds it. */
  predicate Turns(w: World, v: World, e: Event, i: nat) {
    e.Edit? && i < |w.ses.legs| && i < |v.ses.legs| && v.ses.legs[i].sl != w.ses.legs[i].sl
  }

  predicate TurnsAt(ws: seq<World>, es: seq<Event>, k: nat, i: nat)
    requires |ws| == |es| + 1 && k < |es|
  {
    Turns(ws[k], ws[k + 1], es[k], i)
  }

  /** The stop the broker holds in world `k`: that of the last move it took since world `a`, kept or rolled
      back since, or else the stop the session had at `a`. */
  function Told(ws: seq<World>, es: seq<Event>, a: nat, k: nat, i: nat): real
    requires |ws| == |es| + 1 && a <= k <= |es| && i < |ws[a].ses.legs|
    decreases k
  {
    if k == a then ws[a].ses.legs[i].sl
    else if TurnsAt(ws, es, k - 1, i) then ws[k].ses.legs[i].sl
    else Told(ws, es, a, k - 1, i)
  }

  /** A commit failed, or the process died, after the last move. */
  predicate Lost(ws: seq<World>, es: seq<Event>, a: nat, k: nat, i: nat)
    requires |ws| == |es| + 1 && a <= k <= |es|
    decreases k
  {
    k > a && !TurnsAt(ws, es, k - 1, i) && (RollsBack(es[k - 1]) || Lost(ws, es, a, k - 1, i))
  }

  /** Leg `i` is there, and its trade is on `side`. */
  predicate Sided(d: Db, i: nat, side: Side) {
    i < |d.legs| && d.legs[i].trade < |d.trades| && d.trades[d.legs[i].trade].side == side
  }

  // ---- one event -----------------------------------------------------------------------------------

  lemma EditTurns(cfg: RiskCfg, w: World, v: World, e: Event, i: nat, side: Side)
    requires Inv(cfg, w) && Step(cfg, w, v, e) && EditsSession(e) && Sided(w.ses, i, side)
    ensures v.db == w.db && Sided(v.ses, i, side)
    ensures var was, now := w.ses.legs[i].sl, v.ses.legs[i].sl;
            if Turns(w, v, e, i) then Tighter(side, now, was) else now == was
  {
    match e
    case Pass(t, snap, ids, cut) =>
      PassKeepsStop(CtxFor(w.ses, t, snap), ScanOf(w.ses), ids, i);
      PassEvolves(CtxFor(w.ses, t, snap), ScanOf(w.ses), ids, i);
    case _ =>
  }

  /** What one event makes of the two stored stops of a leg. */
  lemma EventTurns(cfg: RiskCfg, w: World, v: World, e: Event, i: nat, side: Side)
    requires Inv(cfg, w) && Step(cfg, w, v, e) && Sided(w.ses, i, side)
    ensures Sided(v.ses, i, side) && i < |w.db.legs| && i < |v.db.legs|
    ensures v.db.legs[i].sl == if Keeps(e) then w.ses.legs[i].sl else w.db.legs[i].sl
    ensures var was, now := w.ses.legs[i].sl, v.ses.legs[i].sl;
            if RollsBack(e) then now == w.db.legs[i].sl
            else if Turns(w, v, e, i) then Tighter(side, now, was) else now == was
  {
    if EditsSession(e) {
      EditTurns(cfg, w, v, e, i, side);
    } else {
      OtherEvents(cfg, w, v, e);
    }
  }

  // ---- every run -----------------------------------------------------------------------------------

  /** The told stop is the session's unless lost; lost, the session is back on the durable stop; and it is never
      looser than either. */
  ghost predicate Covers(w: World, i: nat, side: Side, told: real, lost: bool) {
    && Sided(w.ses, i, side) && i < |w.db.legs|
    && (if lost then w.ses.legs[i].sl == w.db.legs[i].sl else told == w.ses.legs[i].sl)
    && !Tighter(side, w.ses.legs[i].sl, told) && !Tighter(side, w.db.legs[i].sl, told)
  }

  lemma StartCovers(cfg: RiskCfg, w: World, i: nat, side: Side)
    requires Inv(cfg, w) && Sided(w.ses, i, side)
    ensures Covers(w, i, side, w.ses.legs[i].sl, false)
  {
    assert LegEvolves(side, w.db.legs[i], w.ses.legs[i]);
  }

  /** The stop the broker holds, over every run and with ticks ended anywhere: the session's, unless a commit
      failed or the process died since the last move; then the session is back on the durable stop. In every
      world the broker's stop is at least as tight as both. */
  lemma {:induction false} ToldCovers(cfg: RiskCfg, ws: seq<World>, es: seq<Event>, a: nat, k: nat, i: nat, side: Side)
    requires Run(cfg, ws, es) && a <= k <= |es| && Sided(ws[a].ses, i, side)
    ensures Covers(ws[k], i, side, Told(ws, es, a, k, i), Lost(ws, es, a, k, i))
    decreases k
  {
    if k == a {
      RunKeeps(cfg, ws, es, a);
      StartCovers(cfg, ws[a], i, side);
    } else {
      ToldCovers(cfg, ws, es, a, k - 1, i, side);
      RunKeeps(cfg, ws, es, k - 1);
      RunKeeps(cfg, ws, es, k);
      assert StepAt(cfg, ws, es, k - 1);
      EventTurns(cfg, ws[k - 1], ws[k], es[k - 1], i, side);
      StartCovers(cfg, ws[k], i, side);
    }
  }

  /** So unless a move was lost the broker holds the session's stop. */
  lemma ToldIsStored(cfg: RiskCfg, ws: seq<World>, es: seq<Event>, a: nat, k: nat, i: nat, side: Side)
    requires Run(cfg, ws, es) && a <= k <= |es| && Sided(ws[a].ses, i, side) && !Lost(ws, es, a, k, i)
    ensures i < |ws[k].ses.legs| && Told(ws, es, a, k, i) == ws[k].ses.legs[i].sl
  {
    ToldCovers(cfg, ws, es, a, k, i, side);
  }

  /** Over every run, an event loosens the stop the broker holds exactly when a move was lost and the event is
      a next move, to a stop looser than the lost one. */
  lemma ToldLoosensExactly(cfg: RiskCfg, ws: seq<World>, es: seq<Event>, a: nat, k: nat, i: nat, side: Side)
    requires Run(cfg, ws, es) && a <= k < |es| && Sided(ws[a].ses, i, side)
    ensures var told := Told(ws, es, a, k, i);
            Tighter(side, told, Told(ws, es, a, k + 1, i))
            <==> Lost(ws, es, a, k, i) && TurnsAt(ws, es, k, i) && Tighter(side, told, ws[k + 1].ses.legs[i].sl)
  {
    ToldCovers(cfg, ws, es, a, k, i, side);
    RunKeeps(cfg, ws, es, k);
    assert StepAt(cfg, ws, es, k);
    EventTurns(cfg, ws[k], ws[k + 1], es[k], i, side);
  }

  // ---- every tick ----------------------------------------------------------------------------------

  /** The move of leg `i`'s stop that the broker takes on the tick between worlds `w` and `v`, if any. */
  function MoveTaken(act: Act, w: World, v: World, t: nat, i: nat, plan: Ratchet.Plan): Option<real> {
    if act.Review? && act.t == t && t < |w.ses.trades| && i < |w.ses.legs| then
      var poll := PollOf(v.ses, t, i, act.v, act.price, act.ids, true);
      if poll.modified then Ratchet.Wanted(plan, TrackOf(w.ses, t, i), poll) else None
    else None
  }

  /** On the tick between worlds `w` and `v` the broker takes moves, some rule offers to improve on the session's
      stop, and every offer is looser than `told`. */
  ghost predicate OffersLooser(w: World, v: World, act: Act, t: nat, i: nat, plan: Ratchet.Plan, told: real) {
    && act.Review? && act.t == t && t < |w.ses.trades| && i < |w.ses.legs|
    && var track, poll := TrackOf(w.ses, t, i), PollOf(v.ses, t, i, act.v, act.price, act.ids, true);
       && poll.modified && SomeOffer(plan, track, poll)
       && forall x :: Offered(plan, track, poll, x) ==> Tighter(plan.side, told, x)
  }

  ghost predicate Offered(plan: Ratchet.Plan, track: Ratchet.Track, poll: Ratchet.Poll, x: real) {
    Offers(Ratchet.Facing(plan, track, poll), plan.rules, Ratchet.HitAfter(plan, track, poll), x)
  }

  ghost predicate SomeOffer(plan: Ratchet.Plan, track: Ratchet.Track, poll: Ratchet.Poll) {
    exists x :: Offered(plan, track, poll, x)
  }

  /** A move looser than `told` is taken exactly when all that is offered is looser. */
  lemma MoveLoosens(w: World, v: World, act: Act, t: nat, i: nat, plan: Ratchet.Plan, told: real)
    ensures var move := MoveTaken(act, w, v, t, i, plan);
            (move.Some? && Tighter(plan.side, told, move.value)) <==> OffersLooser(w, v, act, t, i, plan, told)
  {
    if act.Review? && act.t == t && t < |w.ses.trades| && i < |w.ses.legs| {
      var track, poll := TrackOf(w.ses, t, i), PollOf(v.ses, t, i, act.v, act.price, act.ids, true);
      var p, hit := Ratchet.Facing(plan, track, poll), Ratchet.HitAfter(plan, track, poll);
      LoosensExactly(p, plan.rules, hit, told);
      assert forall x :: Offered(plan, track, poll, x) <==> Offers(p, plan.rules, hit, x);
    }
  }

  /** What a tick makes of the session's stop: a move that is taken sets it. */
  lemma TickMoves(w: World, v: World, r: Act, i: nat, plan: Ratchet.Plan)
    requires (r.Review? || r.Break?) && Follows(w.ses, r.t, i, plan) && Acts(r, w, v) && LegsOk(w.ses.legs)
    requires OnPlan(r, r.t, plan)
    ensures i < |v.ses.legs|
    ensures var move := MoveTaken(r, w, v, r.t, i, plan);
            && v.ses.legs[i].sl == move.GetOr(w.ses.legs[i].sl)
            && (move.Some? ==> Tighter(plan.side, move.value, w.ses.legs[i].sl))
  {
    if r.Review? {
      ReviewIsTick(w.ses, v.ses, r.t, r.v, r.price, r.ids, r.staged, i, plan);
    } else {
      BrokenIsTick(w.ses, v.ses, r.t, r.v, r.price, r.ids, r.staged, i, plan);
    }
  }

  /** No event from `from` to `to` is a rollback. */
  predicate Calm(es: seq<Event>, from: nat, to: nat) { forall j :: from <= j < to && j < |es| ==> !RollsBack(es[j]) }

  /** As long as nothing is rolled back, what the broker is told and what the session holds change together. */
  lemma {:induction false} CalmTold(cfg: RiskCfg, ws: seq<World>, es: seq<Event>, a: nat, from: nat, k: nat, i: nat,
                                    side: Side)
    requires Run(cfg, ws, es) && a <= from <= k <= |es| && Sided(ws[a].ses, i, side) && Calm(es, from, k)
    ensures Sided(ws[from].ses, i, side) && Sided(ws[k].ses, i, side)
    ensures var was, now := ws[from].ses.legs[i].sl, ws[k].ses.legs[i].sl;
            if now == was then Told(ws, es, a, k, i) == Told(ws, es, a, from, i)
            else Tighter(side, now, was) && Told(ws, es, a, k, i) == now
    decreases k
  {
    ToldCovers(cfg, ws, es, a, from, i, side);
    if from < k {
      CalmTold(cfg, ws, es, a, from, k - 1, i, side);
      RunKeeps(cfg, ws, es, k - 1);
      assert StepAt(cfg, ws, es, k - 1);
      EventTurns(cfg, ws[k - 1], ws[k], es[k - 1], i, side);
    }
  }

  lemma WovenIsCalm(ws: seq<World>, es: seq<Event>, r: Act, from: nat, to: nat, stages: seq<Stage>)
    requires |ws| == |es| + 1 && Woven(ws, es, r, from, to, stages)
    ensures Calm(es, from, to)
  {
    forall j | from <= j < to ensures !RollsBack(es[j]) {
      if from < j {
        assert WovenAt(ws, es, r, from, stages, j - from - 1);
      }
    }
  }

  /** What a whole tick tells the broker is the move it takes, or nothing new. */
  lemma TickTells(cfg: RiskCfg, ws: seq<World>, es: seq<Event>, a: nat, r: Act, from: nat, to: nat,
                  stages: seq<Stage>, i: nat, plan: Ratchet.Plan)
    requires Run(cfg, ws, es) && Woven(ws, es, r, from, to, stages) && a <= from && Sided(ws[a].ses, i, plan.side)
    requires Follows(ws[from].ses, r.t, i, plan) && OnPlan(r, r.t, plan)
    ensures var move, was := MoveTaken(r, ws[from], ws[to], r.t, i, plan), ws[from].ses.legs[i].sl;
            && Told(ws, es, a, to, i) == move.GetOr(Told(ws, es, a, from, i))
            && (move.Some? ==> Tighter(plan.side, move.value, was))
  {
    WovenIsCalm(ws, es, r, from, to, stages);
    WovenActs(cfg, ws, es, r, from, to, stages);
    RunKeeps(cfg, ws, es, from);
    TickMoves(ws[from], ws[to], r, i, plan);
    CalmTold(cfg, ws, es, a, from, to, i, plan.side);
  }

  /** A whole tick, with the executor at work in it, loosens the stop the broker holds exactly when a move was
      lost before, the broker takes moves on this tick, and all that the rules offer beyond the stop rolled back
      to is looser than the lost one. */
  lemma TickLoosensExactly(cfg: RiskCfg, ws: seq<World>, es: seq<Event>, a: nat, r: Act, from: nat, to: nat,
                           stages: seq<Stage>, i: nat, plan: Ratchet.Plan)
    requires Run(cfg, ws, es) && Woven(ws, es, r, from, to, stages) && a <= from && Sided(ws[a].ses, i, plan.side)
    requires Follows(ws[from].ses, r.t, i, plan) && OnPlan(r, r.t, plan)
    ensures var told := Told(ws, es, a, from, i);
            Tighter(plan.side, told, Told(ws, es, a, to, i))
            <==> Lost(ws, es, a, from, i) && OffersLooser(ws[from], ws[to], r, r.t, i, plan, told)
  {
    var told := Told(ws, es, a, from, i);
    TickTells(cfg, ws, es, a, r, from, to, stages, i, plan);
    MoveLoosens(ws[from], ws[to], r, r.t, i, plan, told);
    ToldCovers(cfg, ws, es, a, from, i, plan.side);
  }

  // ---- a run on which it loosens -------------------------------------------------------------------

  const RULES := [Rule(OnMove(10.0), ToNumber(Some(105.0))), Rule(OnMove(5.0), ToEntry)]
  const OPENED := Snapshot([Pos(7, None, "BUY", true, None)], {}, [], map[], 0.0, None, 1.0, 0, 0, None)
  const SHOWN := View(Quote(None, None, None), None, None, OPENED, Broker((i: nat) => Refusal, {}, {7}), RULES, None,
                      None, false, None, {})
  const PLAN := Ratchet.Plan(Buy, 100.0, map[1 := 110.0], None, RULES)

  /** The trade after a tick at `price` that moved its stop to `sl`. */
  function At(price: real, sl: real): Db {
    Db([TRADE.(mfe := Some(price))], [], [HELD.(sl := sl, slMoved := true)])
  }

  function Moves(price: real): real { if price == 111.0 then 105.0 else 100.0 }

  /** At 111 the rules ask for 105, at 106 for the entry. */
  lemma RulesAsk(price: real, tps: map<int, real>, hits: set<int>)
    requires price == 111.0 || price == 106.0
    ensures StopFor(Buy, SHOWN, price, tps, hits, HELD) == Some(Moves(price))
  {
    var p := StopContext(Buy, SHOWN, price, tps, HELD);
    assert RULES[..1] == [RULES[0]] && RULES[..1][..0] == [];
    assert NewStop(p, [], hits) == None;
    assert NewStop(p, RULES[..1], hits) == if price == 111.0 then Some(105.0) else None;
  }

  /** A whole tick: the price is latched, the pass finds nothing to do, and the broker takes the move. */
  lemma TickReviews(price: real)
    requires price == 111.0 || price == 106.0
    ensures var l := Latched(Holding(), 0, price);
            && MfeOf(Holding(), 0, SHOWN, price) == price
            && Reconciled(l, 0, SnapOf(SHOWN, price, false), [0], false) == l
            && Reviewed(Holding(), 0, SHOWN, price, [0], false) == At(price, Moves(price))
  {
    var l, snap := Latched(Holding(), 0, price), SnapOf(SHOWN, price, false);
    var c, s := CtxFor(l, 0, snap), ScanOf(l);
    assert [0][..0] == [] && Visits(c, s, []) == s && Visits(c, s, [0]) == VisitLeg(c, s, 0);
    assert snap.positions[0].ref == 7;
    assert VisitLeg(c, s, 0) == s;
    assert Reconciled(l, 0, snap, [0], false) == l;
    RulesAsk(price, TpLevels(l.legs, 0), HitsOf(l, 0, Buy, price));
    assert LivePos(OPENED.positions, HELD.posRef) == Some(OPENED.positions[0]);
    assert StopsOf(l, 0, [0], SHOWN, price, price).legs == At(price, Moves(price)).legs;
  }

  lemma LatchSteps(cfg: RiskCfg, price: real)
    ensures Step(cfg, Quietly(Holding(), Holding()), Quietly(Holding(), Latched(Holding(), 0, price)),
                 Edit(0, Latched(Holding(), 0, price)))
  {
    assert EditOk(Holding(), Latched(Holding(), 0, price), 0);
  }

  lemma PassSteps(cfg: RiskCfg, price: real)
    requires price == 111.0 || price == 106.0
    ensures var w := Quietly(Holding(), Latched(Holding(), 0, price));
            Step(cfg, w, w, Pass(0, SnapOf(SHOWN, price, false), [0], false))
  {
    TickReviews(price);
  }

  lemma MoveSteps(cfg: RiskCfg, price: real)
    requires price == 111.0 || price == 106.0
    ensures Step(cfg, Quietly(Holding(), Latched(Holding(), 0, price)), Quietly(Holding(), At(price, Moves(price))),
                 Edit(0, At(price, Moves(price))))
  {
    assert EditOk(Latched(Holding(), 0, price), At(price, Moves(price)), 0);
  }

  function TickEvents(price: real): seq<Event> {
    [Edit(0, Latched(Holding(), 0, price)), Pass(0, SnapOf(SHOWN, price, false), [0], false),
     Edit(0, At(price, Moves(price)))]
  }

  function TickWorlds(price: real): seq<World> {
    var w := Quietly(Holding(), Latched(Holding(), 0, price));
    [w, w, Quietly(Holding(), At(price, Moves(price)))]
  }

  /** A whole tick, latch, pass and move. */
  lemma TickGrows(cfg: RiskCfg, ws: seq<World>, es: seq<Event>, price: real)
    requires Run(cfg, ws, es) && ws[|es|] == Quietly(Holding(), Holding()) && (price == 111.0 || price == 106.0)
    ensures Run(cfg, ws + TickWorlds(price), es + TickEvents(price))
  {
    var us, fs := TickWorlds(price), TickEvents(price);
    LatchSteps(cfg, price);
    RunGrows(cfg, ws, es, us[0], fs[0]);
    PassSteps(cfg, price);
    RunGrows(cfg, ws + [us[0]], es + [fs[0]], us[1], fs[1]);
    MoveSteps(cfg, price);
    RunGrows(cfg, ws + [us[0]] + [us[1]], es + [fs[0]] + [fs[1]], us[2], fs[2]);
    assert ws + us == ws + [us[0]] + [us[1]] + [us[2]] && es + fs == es + [fs[0]] + [fs[1]] + [fs[2]];
  }

  function TickAt(price: real): Act { Review(0, SHOWN, price, [0], false) }

  const STAGES := [Latching, Moving(0), Moving(1)]

  /** The last event of the tick is the move the rules want. */
  lemma MovesHeld(price: real)
    requires price == 111.0 || price == 106.0
    ensures var l := Latched(Holding(), 0, price);
            MovesNext(TickAt(price), Quietly(Holding(), l), price, Edit(0, At(price, Moves(price))), 0, 1)
  {
    var l, r := Latched(Holding(), 0, price), TickAt(price);
    RulesAsk(price, TpLevels(l.legs, 0), HitsOf(l, 0, Buy, price));
    assert LivePos(OPENED.positions, HELD.posRef) == Some(OPENED.positions[0]);
    assert RatchetedIn(l, r, price, 0) == HELD.(sl := Moves(price), slMoved := true);
    assert SetLeg(l, 0, RatchetedIn(l, r, price, 0)).legs == At(price, Moves(price)).legs;
  }

  /** The events from `from` on are a tick at `price`. */
  predicate TickHere(ws: seq<World>, es: seq<Event>, from: nat, price: real) {
    && |ws| == |es| + 1 && from + 3 <= |es| && ws[from] == Quietly(Holding(), Holding())
    && (forall j :: 0 <= j < 3 ==> ws[from + 1 + j] == TickWorlds(price)[j] && es[from + j] == TickEvents(price)[j])
  }

  lemma TickPasses(ws: seq<World>, es: seq<Event>, from: nat, price: real)
    requires TickHere(ws, es, from, price)
    ensures WovenAt(ws, es, TickAt(price), from, STAGES, 0)
  {
    assert es[from + 1] == TickEvents(price)[1];
  }

  lemma TickTurns(ws: seq<World>, es: seq<Event>, from: nat, price: real)
    requires TickHere(ws, es, from, price) && (price == 111.0 || price == 106.0)
    ensures WovenAt(ws, es, TickAt(price), from, STAGES, 1)
  {
    TickReviews(price);
    MovesHeld(price);
    assert ws[from + 1 + 1] == TickWorlds(price)[1] && es[from + 2] == TickEvents(price)[2];
  }

  /** The three events are one whole tick. */
  lemma TickIsWoven(ws: seq<World>, es: seq<Event>, from: nat, price: real)
    requires TickHere(ws, es, from, price) && (price == 111.0 || price == 106.0)
    ensures Woven(ws, es, TickAt(price), from, from + 3, STAGES)
  {
    TickReviews(price);
    TickPasses(ws, es, from, price);
    TickTurns(ws, es, from, price);
    assert es[from + 0] == TickEvents(price)[0] && ws[from + 1 + 2] == TickWorlds(price)[2];
  }

  lemma OpenRun(cfg: RiskCfg) returns (ws: seq<World>, es: seq<Event>)
    requires !cfg.halted && !cfg.enabled
    ensures Run(cfg, ws, es) && |es| == 2 && ws[2] == Quietly(Holding(), Holding())
  {
    Opens(cfg);
    ws := [EMPTY, DRAFTED, Quietly(Holding(), Holding())];
    es := [Check(TRADE, 0.0), HandOver([], [HELD])];
    assert StepAt(cfg, ws, es, 0) && StepAt(cfg, ws, es, 1);
  }

  /** Two whole ticks with a failed commit between them. */
  lemma TwoTicks(cfg: RiskCfg) returns (ws: seq<World>, es: seq<Event>)
    requires !cfg.halted && !cfg.enabled
    ensures var held := Quietly(Holding(), Holding());
            && Run(cfg, ws, es) && |es| == 9 && es[5] == CommitAll(Failed) && ws[6] == held
            && TickHere(ws, es, 2, 111.0) && TickHere(ws, es, 6, 106.0)
  {
    var held := Quietly(Holding(), Holding());
    ws, es := OpenRun(cfg);
    TickGrows(cfg, ws, es, 111.0);
    ws, es := ws + TickWorlds(111.0), es + TickEvents(111.0);
    RunGrows(cfg, ws, es, held, CommitAll(Failed));
    ws, es := ws + [held], es + [CommitAll(Failed)];
    TickGrows(cfg, ws, es, 106.0);
    ws, es := ws + TickWorlds(106.0), es + TickEvents(106.0);
  }

  /** The stored stop never loosens, but the one the broker holds can: the move to 105 is taken and its tick's
      commit fails, so the next tick improves on the older stored stop, and moves the broker to 100. */
  lemma ToldLoosens(cfg: RiskCfg) returns (ws: seq<World>, es: seq<Event>)
    requires !cfg.halted && !cfg.enabled
    ensures Run(cfg, ws, es) && |es| == 9 && 0 < |ws[2].ses.legs|
    ensures Woven(ws, es, TickAt(111.0), 2, 5, STAGES) && es[5] == CommitAll(Failed)
    ensures Woven(ws, es, TickAt(106.0), 6, 9, STAGES)
    ensures Told(ws, es, 2, 6, 0) == 105.0 && Lost(ws, es, 2, 6, 0) && Told(ws, es, 2, 9, 0) == 100.0
  {
    ws, es := TwoTicks(cfg);
    TickIsWoven(ws, es, 2, 111.0);
    TickIsWoven(ws, es, 6, 106.0);
    assert ws[2 + 1 + 1] == TickWorlds(111.0)[1] && ws[2 + 1 + 2] == TickWorlds(111.0)[2];
    assert ws[6 + 1 + 1] == TickWorlds(106.0)[1] && ws[6 + 1 + 2] == TickWorlds(106.0)[2];
    assert es[2 + 2] == TickEvents(111.0)[2] && es[6 + 2] == TickEvents(106.0)[2];
    assert TurnsAt(ws, es, 4, 0) && !TurnsAt(ws, es, 5, 0) && TurnsAt(ws, es, 8, 0);
    assert Told(ws, es, 2, 5, 0) == 105.0 && !Lost(ws, es, 2, 5, 0);
  }
}
