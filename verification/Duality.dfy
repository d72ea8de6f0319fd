/**
 BUY and SELL are one algorithm read in a mirror: reflecting every price p to K - p, swapping bid
 with offer and BUY with SELL, reflects every price a tick computes and keeps everything else.
 */
module Duality {
  import opened Wrappers
  import opened Prices
  import opened StopRules

  /** Everything one tick reads about one leg and one ladder rung. */
  datatype Scene = Scene(side: Side, quote: Quote, prevMfe: Option<real>, hi: Option<real>, lo: Option<real>,
                         tps: map<int, real>, achieved: set<int>, rules: seq<Rule>, initialSl: Option<real>,
                         entry: real, fill: Option<real>, tp: real, sl: real, slMoved: bool, lot: real,
                         tol: real, valuePerPoint: real, reason: Option<Outcome>, brokerPl: Option<real>,
                         level: real, onTarget: bool)

  datatype Decisions = Decisions(rungFires: bool, mfe: real, hit: set<int>, closePx: real, outcome: Outcome,
                                 estimate: real, newStop: Option<real>)

  function MfeOf(s: Scene, price: real): real {
    TickMfe(s.side, s.prevMfe, price, s.hi, s.lo, s.quote)
  }

  function HitOf(s: Scene, price: real): set<int> {
    LevelsReached(s.side, MfeOf(s, price), s.tps) + s.achieved
  }

  function BasisOf(s: Scene): real { EntryBasis(s.fill, s.entry) }

  function ClosePxOf(s: Scene, price: real): real {
    ClosePrice(s.side, price, s.tp, s.sl, s.tol)
  }

  function OutcomeOf(s: Scene, price: real): Outcome {
    CloseOutcome(s.reason, ClosePxOf(s, price), BasisOf(s), s.tp, s.sl, s.slMoved, s.tol, s.brokerPl)
  }

  function EstimateOf(s: Scene, price: real): real {
    EstimatedPl(s.side, ClosePxOf(s, price), BasisOf(s), s.lot, s.valuePerPoint)
  }

  function PositionOf(s: Scene, price: real): Position {
    Position(s.side, BasisOf(s), Some(s.sl), price, s.tps, s.initialSl)
  }

  function NewStopOf(s: Scene, price: real): Option<real> {
    NewStop(PositionOf(s, price), s.rules, HitOf(s, price))
  }

  predicate RungFires(s: Scene, price: real) {
    var mid := MidPrice(s.quote, price);
    if s.onTarget then ReachedTarget(s.side, TargetSide(s.side, s.quote, mid), s.level)
    else Reached(s.side, EntrySide(s.side, s.quote, mid), s.level)
  }

  /** The decisions of one tick, or None when the broker quoted no price. */
  function Decide(s: Scene): Option<Decisions> {
    var quoted := ClosingSide(s.side, s.quote);
    if quoted.None? then None else Some(DecideAt(s, quoted.value))
  }

  function DecideAt(s: Scene, price: real): Decisions {
    Decisions(RungFires(s, price), MfeOf(s, price), HitOf(s, price), ClosePxOf(s, price), OutcomeOf(s, price),
              EstimateOf(s, price), NewStopOf(s, price))
  }

  function Flip(side: Side): Side { if side.Buy? then Sell else Buy }

  function Mirror(K: real, x: Option<real>): Option<real> {
    if x.Some? then Some(K - x.value) else None
  }

  function MirrorMap(K: real, m: map<int, real>): map<int, real> {
    map i | i in m :: K - m[i]
  }

  function MirrorRule(K: real, r: Rule): Rule {
    if r.target.ToNumber? then r.(target := ToNumber(Mirror(K, r.target.value))) else r
  }

  function MirrorRules(K: real, rules: seq<Rule>): seq<Rule> {
    seq(|rules|, i requires 0 <= i < |rules| => MirrorRule(K, rules[i]))
  }

  function MirrorQuote(K: real, q: Quote): Quote {
    Quote(Mirror(K, q.offer), Mirror(K, q.bid), Mirror(K, q.last))
  }

  function MirrorPosition(K: real, p: Position): Position {
    Position(Flip(p.side), K - p.entry, Mirror(K, p.sl), K - p.price, MirrorMap(K, p.tps), Mirror(K, p.initialSl))
  }

  function MirrorScene(K: real, s: Scene): Scene {
    s.(side := Flip(s.side), quote := MirrorQuote(K, s.quote), prevMfe := Mirror(K, s.prevMfe),
       hi := Mirror(K, s.lo), lo := Mirror(K, s.hi), tps := MirrorMap(K, s.tps),
       rules := MirrorRules(K, s.rules), initialSl := Mirror(K, s.initialSl),
       entry := K - s.entry, fill := Mirror(K, s.fill), tp := K - s.tp, sl := K - s.sl, level := K - s.level)
  }

  function MirrorDecisions(K: real, d: Decisions): Decisions {
    d.(mfe := K - d.mfe, closePx := K - d.closePx, newStop := Mirror(K, d.newStop))
  }

  /** A price the broker sent is strictly inside the mirrored range, so it is non-zero on both sides. */
  predicate Inside(K: real, x: Option<real>) {
    x.Some? ==> 0.0 < x.value < K
  }

  predicate RealPrices(K: real, s: Scene) {
    Inside(K, s.quote.bid) && Inside(K, s.quote.offer) && Inside(K, s.quote.last) && Inside(K, s.fill)
  }

  lemma StopTargetMirrors(K: real, r: Rule, p: Position, hit: set<int>)
    ensures Triggered(MirrorRule(K, r).trigger, MirrorPosition(K, p), hit) == Triggered(r.trigger, p, hit)
    ensures TargetSl(MirrorRule(K, r), MirrorPosition(K, p)) == Mirror(K, TargetSl(r, p))
  {}

  lemma {:induction false} NewStopMirrors(K: real, p: Position, rules: seq<Rule>, hit: set<int>)
    ensures NewStop(MirrorPosition(K, p), MirrorRules(K, rules), hit) == Mirror(K, NewStop(p, rules, hit))
  {
    if rules != [] {
      var last := |rules| - 1;
      assert MirrorRules(K, rules)[..last] == MirrorRules(K, rules[..last]);
      NewStopMirrors(K, p, rules[..last], hit);
      StopTargetMirrors(K, rules[last], p, hit);
    }
  }

  lemma QuoteMirrors(K: real, side: Side, q: Quote)
    requires Inside(K, q.bid) && Inside(K, q.offer) && Inside(K, q.last)
    ensures ClosingSide(Flip(side), MirrorQuote(K, q)) == Mirror(K, ClosingSide(side, q))
    ensures HalfSpread(MirrorQuote(K, q)) == HalfSpread(q)
  {}

  lemma MfeMirrors(K: real, s: Scene, price: real)
    requires RealPrices(K, s)
    ensures MfeOf(MirrorScene(K, s), K - price) == K - MfeOf(s, price)
  {}

  lemma HitMirrors(K: real, s: Scene, price: real)
    requires RealPrices(K, s)
    ensures HitOf(MirrorScene(K, s), K - price) == HitOf(s, price)
  {
    MfeMirrors(K, s, price);
    var m := MirrorScene(K, s);
    var mfe := MfeOf(s, price);
    assert forall i :: i in s.tps ==> ReachedTarget(m.side, K - mfe, m.tps[i]) == ReachedTarget(s.side, mfe, s.tps[i]);
    assert LevelsReached(m.side, K - mfe, m.tps) == LevelsReached(s.side, mfe, s.tps);
  }

  lemma RungMirrors(K: real, s: Scene, price: real)
    ensures RungFires(MirrorScene(K, s), K - price) == RungFires(s, price)
  {}

  lemma CloseMirrors(K: real, s: Scene, price: real)
    requires RealPrices(K, s)
    ensures BasisOf(MirrorScene(K, s)) == K - BasisOf(s)
    ensures ClosePxOf(MirrorScene(K, s), K - price) == K - ClosePxOf(s, price)
  {}

  lemma OutcomeMirrors(K: real, s: Scene, price: real)
    requires RealPrices(K, s)
    ensures OutcomeOf(MirrorScene(K, s), K - price) == OutcomeOf(s, price)
  {
    CloseMirrors(K, s, price);
    var closePx, entry := ClosePxOf(s, price), BasisOf(s);
    assert Abs((K - closePx) - (K - entry)) == Abs(closePx - entry);
    assert Abs((K - closePx) - (K - s.tp)) == Abs(closePx - s.tp);
    assert Abs((K - closePx) - (K - s.sl)) == Abs(closePx - s.sl);
  }

  lemma EstimateMirrors(K: real, s: Scene, price: real)
    requires RealPrices(K, s)
    ensures EstimateOf(MirrorScene(K, s), K - price) == EstimateOf(s, price)
  {}

  lemma NewStopOfMirrors(K: real, s: Scene, price: real)
    requires RealPrices(K, s)
    ensures NewStopOf(MirrorScene(K, s), K - price) == Mirror(K, NewStopOf(s, price))
  {
    CloseMirrors(K, s, price);
    HitMirrors(K, s, price);
    assert PositionOf(MirrorScene(K, s), K - price) == MirrorPosition(K, PositionOf(s, price));
    NewStopMirrors(K, PositionOf(s, price), s.rules, HitOf(s, price));
  }

  /** The whole tick commutes with the mirror. */
  lemma TickMirrors(K: real, s: Scene)
    requires RealPrices(K, s)
    ensures Decide(MirrorScene(K, s))
         == (if Decide(s).None? then None else Some(MirrorDecisions(K, Decide(s).value)))
  {
    QuoteMirrors(K, s.side, s.quote);
    var quoted := ClosingSide(s.side, s.quote);
    assert ClosingSide(Flip(s.side), MirrorQuote(K, s.quote)) == Mirror(K, quoted);
    if quoted.Some? {
      DecisionsMirror(K, s, quoted.value);
    }
  }

  lemma DecisionsMirror(K: real, s: Scene, price: real)
    requires RealPrices(K, s)
    ensures DecideAt(MirrorScene(K, s), K - price) == MirrorDecisions(K, DecideAt(s, price))
  {
    RungMirrors(K, s, price);
    MfeMirrors(K, s, price);
    HitMirrors(K, s, price);
    CloseMirrors(K, s, price);
    OutcomeMirrors(K, s, price);
    EstimateMirrors(K, s, price);
    NewStopOfMirrors(K, s, price);
  }
}

/** The mirror on the monitor's own decisions: how a leg is closed, what a waiting row gets, and where
    the ratchet puts a stop. */
module MirrorTick {
  import opened Wrappers
  import opened Prices
  import opened StopRules
  import opened Rows
  import opened Reconcile
  import opened Book
  import opened Ladder
  import opened TickRules
  import opened Duality

  function MirrorLeg(K: real, l: Leg): Leg {
    l.(entry := K - l.entry, tp := K - l.tp, initialSl := K - l.initialSl, sl := K - l.sl, fill := Mirror(K, l.fill),
       close := if l.close.Some? then Some(MirrorClose(K, l.close.value)) else None)
  }

  function MirrorClose(K: real, close: Close): Close { close.(price := K - close.price) }

  /** A direction printed the other way round. */
  function FlipName(name: string): string {
    if EndsWith(name, "BUY") then name[..|name| - 3] + "SELL"
    else if EndsWith(name, "SELL") then name[..|name| - 4] + "BUY"
    else name
  }

  function MirrorPos(K: real, p: Pos): Pos {
    p.(direction := FlipName(p.direction), openPx := Mirror(K, p.openPx))
  }

  function MirrorPositions(K: real, ps: seq<Pos>): (ms: seq<Pos>)
    ensures |ms| == |ps|
  {
    seq(|ps|, i requires 0 <= i < |ps| => MirrorPos(K, ps[i]))
  }

  function MirrorSnap(K: real, s: Snapshot): Snapshot {
    s.(positions := MirrorPositions(K, s.positions), price := K - s.price)
  }

  function MirrorCtx(K: real, c: Ctx): Ctx { c.(side := Flip(c.side), snap := MirrorSnap(K, c.snap)) }

  function MirrorRow(K: real, tr: Tranche): Tranche { tr.(level := Mirror(K, tr.level)) }

  function MirrorView(K: real, v: View): View {
    v.(quote := MirrorQuote(K, v.quote), hi := Mirror(K, v.lo), lo := Mirror(K, v.hi), snap := MirrorSnap(K, v.snap),
       broker := MirrorBroker(K, v.broker), rules := MirrorRules(K, v.rules), initialSl := Mirror(K, v.initialSl))
  }

  function MirrorReply(K: real, reply: Reply): Reply {
    if reply.Accepted? then reply.(fill := Mirror(K, reply.fill)) else reply
  }

  function MirrorBroker(K: real, m: Broker): Broker {
    m.(replies := (i: nat) => MirrorReply(K, m.replies(i)))
  }

  /** What a close depends on, as a scene. */
  function SceneOf(c: Ctx, leg: Leg, m: Option<Txn>): Scene {
    var reason := if leg.posRef.Some? && leg.posRef.value in c.snap.reasons
                  then Some(c.snap.reasons[leg.posRef.value]) else None;
    var settled := if Classify(m, leg.posRef).Exact? then m.value.pl else None;
    Scene(c.side, Quote(None, None, None), None, None, None, map[], {}, [], None, leg.entry, leg.fill, leg.tp, leg.sl,
          leg.slMoved, leg.lot, Tolerance(c.snap.minStop, leg.tp), c.snap.valuePerPoint, reason, settled, leg.tp, true)
  }

  lemma SceneMirrors(K: real, c: Ctx, leg: Leg, m: Option<Txn>)
    requires c.snap.minStop.Some? && c.snap.minStop.value != 0.0
    ensures SceneOf(MirrorCtx(K, c), MirrorLeg(K, leg), m) == MirrorScene(K, SceneOf(c, leg, m))
  {}

  /** The money of a close, from its outcome and the price estimate. */
  function MoneyOf(leg: Leg, m: Option<Txn>, outcome: Outcome, estimate: real): Option<real> {
    match Classify(m, leg.posRef)
    case Exact => if m.value.pl.Some? then Some(SignedClosePl(m.value.pl.value, outcome)) else None
    case Heuristic => Some(estimate)
    case _ => None
  }

  /** A close as the decisions of a scene. */
  function CloseFrom(s: Scene, leg: Leg, m: Option<Txn>, price: real): Close {
    var outcome := OutcomeOf(s, price);
    Close(ClosePxOf(s, price), outcome, MoneyOf(leg, m, outcome, EstimateOf(s, price)), Some(Classify(m, leg.posRef)))
  }

  lemma CloseAsScene(c: Ctx, leg: Leg, m: Option<Txn>)
    ensures CloseOf(c, leg, m) == CloseFrom(SceneOf(c, leg, m), leg, m, c.snap.price)
  {}

  lemma CloseFromMirrors(K: real, s: Scene, leg: Leg, m: Option<Txn>, price: real)
    requires RealPrices(K, s)
    ensures CloseFrom(MirrorScene(K, s), MirrorLeg(K, leg), m, K - price)
         == MirrorClose(K, CloseFrom(s, leg, m, price))
  {
    CloseMirrors(K, s, price);
    OutcomeMirrors(K, s, price);
    EstimateMirrors(K, s, price);
  }

  /** With a broker tolerance set, a close is mirrored to a close: same outcome, money and attribution. */
  lemma CloseOfMirrors(K: real, c: Ctx, leg: Leg, m: Option<Txn>)
    requires c.snap.minStop.Some? && c.snap.minStop.value != 0.0 && Inside(K, leg.fill)
    ensures CloseOf(MirrorCtx(K, c), MirrorLeg(K, leg), m) == MirrorClose(K, CloseOf(c, leg, m))
  {
    CloseAsScene(c, leg, m);
    CloseAsScene(MirrorCtx(K, c), MirrorLeg(K, leg), m);
    SceneMirrors(K, c, leg, m);
    CloseFromMirrors(K, SceneOf(c, leg, m), leg, m, c.snap.price);
  }

  /** A waiting row gets the mirrored row's verdict. */
  lemma JudgeMirrors(K: real, side: Side, q: Quote, mid: real, now: int, createdAt: int, ttl: nat, staged: StagedCfg,
                     tr: Tranche)
    ensures Judge(FactsFrom(Flip(side), MirrorQuote(K, q), K - mid, now, createdAt, ttl, staged), MirrorRow(K, tr))
         == Judge(FactsFrom(side, q, mid, now, createdAt, ttl, staged), tr)
  {}

  /** The ratchet puts the mirrored leg's stop at the mirror of the leg's. */
  lemma StopForMirrors(K: real, side: Side, v: View, price: real, tps: map<int, real>, hits: set<int>, leg: Leg)
    requires Inside(K, leg.fill)
    ensures StopFor(Flip(side), MirrorView(K, v), K - price, MirrorMap(K, tps), hits, MirrorLeg(K, leg))
         == Mirror(K, StopFor(side, v, price, tps, hits, leg))
  {
    var p := StopContext(side, v, price, tps, leg);
    assert StopContext(Flip(side), MirrorView(K, v), K - price, MirrorMap(K, tps), MirrorLeg(K, leg))
        == MirrorPosition(K, p);
    NewStopMirrors(K, p, v.rules, hits);
  }
}
