/** One broker position, one leg: over every run, in the session and in the durable tables. */
module LinkRuns {
  import opened Wrappers
  import opened Prices
  import opened Rows
  import opened Reconcile
  import opened Links
  import opened Book
  import opened Invariants
  import opened Steps

  /** The broker's ids are new when issued: a new order has no position yet, and a position opened at
      market has no order. */
  ghost predicate NewRef(legs: seq<Leg>, ref: Ref, market: bool, origin: Ref -> Option<Ref>) {
    if market then origin(ref).None? && forall i :: 0 <= i < |legs| ==> legs[i].posRef != Some(ref)
    else
      && (forall i :: 0 <= i < |legs| ==> legs[i].orderRef != Some(ref))
      && (forall i :: 0 <= i < |legs| && legs[i].posRef.Some? ==> origin(legs[i].posRef.value) != Some(ref))
  }

  ghost predicate NewLeg(legs: seq<Leg>, l: Leg, origin: Ref -> Option<Ref>) {
    && (l.orderRef.Some? ==> l.posRef.None? && NewRef(legs, l.orderRef.value, false, origin))
    && (l.posRef.Some? ==> NewRef(legs, l.posRef.value, true, origin))
  }

  /** What the broker owes each event: truthful listings and new ids. */
  ghost predicate Honestly(w: World, e: Event, origin: Ref -> Option<Ref>) {
    match e
    case Pass(_, snap, _, _) => Honest(snap, w.ses.legs, origin)
    case HandOver(_, legs) => forall i :: 0 <= i < |legs| ==> NewLeg(w.ses.legs + legs[..i], legs[i], origin)
    case Place(Accepted(ref, _, _), _) =>
      w.drive.Ready? && w.drive.todo != [] && w.drive.todo[0] < |w.ses.legs|
      ==> NewRef(w.ses.legs, ref, w.ses.legs[w.drive.todo[0]].kind.Market?, origin)
    case _ => true
  }

  /** And besides, no guess of a pass takes another working leg's fill. */
  ghost predicate Truthful(w: World, e: Event, origin: Ref -> Option<Ref>) {
    && Honestly(w, e, origin)
    && (e.Pass? && Managed(w.ses, e.t) && LegsOfTrade(w.ses, e.t, e.ids)
        ==> GuessesSafe(CtxFor(w.ses, e.t, e.snap), ScanOf(w.ses), e.ids, origin))
  }

  lemma AddKeeps(legs: seq<Leg>, l: Leg, origin: Ref -> Option<Ref>)
    requires LinksOk(legs, origin) && LegOk(l) && Fresh(l.status) && NewLeg(legs, l, origin)
    ensures LinksOk(legs + [l], origin)
  {}

  lemma {:induction false} BatchKeeps(legs: seq<Leg>, batch: seq<Leg>, origin: Ref -> Option<Ref>)
    requires LinksOk(legs, origin) && forall i :: 0 <= i < |batch| ==> LegOk(batch[i]) && Fresh(batch[i].status)
    requires forall i :: 0 <= i < |batch| ==> NewLeg(legs + batch[..i], batch[i], origin)
    ensures LinksOk(legs + batch, origin)
  {
    if batch == [] {
      assert legs + batch == legs;
    } else {
      var n := |batch| - 1;
      var init := batch[..n];
      forall i | 0 <= i < n ensures NewLeg(legs + init[..i], init[i], origin) {
        assert init[..i] == batch[..i];
      }
      BatchKeeps(legs, init, origin);
      AddKeeps(legs + init, batch[n], origin);
      assert legs + init + [batch[n]] == legs + batch;
    }
  }

  /** The durable rows' ids are all in the session, so an id new to the session is new to them. */
  lemma NewToDurable(db: Db, ses: Db, more: seq<Leg>, l: Leg, origin: Ref -> Option<Ref>)
    requires Synced(db, ses) && NewLeg(ses.legs + more, l, origin)
    ensures NewLeg(db.legs + more, l, origin)
  {
    forall i | 0 <= i < |db.legs + more|
      ensures (db.legs + more)[i].orderRef.Some? ==> (db.legs + more)[i].orderRef == (ses.legs + more)[i].orderRef
      ensures (db.legs + more)[i].posRef.Some? ==> (db.legs + more)[i].posRef == (ses.legs + more)[i].posRef
    {
      if i < |db.legs| {
        assert LegEvolves(db.trades[db.legs[i].trade].side, db.legs[i], ses.legs[i]);
      }
    }
  }

  lemma PlaceKeepsLinks(legs: seq<Leg>, i: nat, reply: Reply, now: int, origin: Ref -> Option<Ref>)
    requires LinksOk(legs, origin) && i < |legs| && legs[i].status.Staged?
    requires reply.Accepted? ==> NewRef(legs, reply.ref, legs[i].kind.Market?, origin)
    ensures LinksOk(legs[i := PlacedLeg(legs[i], reply, now)], origin)
  {}

  /** Links stay, and no leg comes to work or be held that was not. */
  predicate LinksStay(a: Leg, b: Leg) {
    && b.orderRef == a.orderRef && b.posRef == a.posRef && LegOk(b)
    && (b.status.Open? ==> a.status.Open?) && (b.status.Closed? ==> a.status.Closed?)
    && (b.status.Working? ==> a.status.Working?)
  }

  lemma StayingKeepsLinks(a: seq<Leg>, b: seq<Leg>, origin: Ref -> Option<Ref>)
    requires LinksOk(a, origin) && |a| == |b| && forall i :: 0 <= i < |a| ==> LinksStay(a[i], b[i])
    ensures LinksOk(b, origin)
  {
    forall i, j, p | 0 <= i < |b| && 0 <= j < |b| && Holds(b[i], p) && Holds(b[j], p) ensures i == j {
      assert Holds(a[i], p) && Holds(a[j], p);
    }
    forall j, q | 0 <= j < |b| && b[j].status.Open? && b[j].posRef == Some(q) ensures NotAnothers(b, j, q, origin) {
      assert NotAnothers(a, j, q, origin);
    }
  }

  lemma EditKeepsLinks(d: Db, e: Db, t: nat, origin: Ref -> Option<Ref>)
    requires EditOk(d, e, t) && LinksOk(d.legs, origin)
    ensures LinksOk(e.legs, origin)
  {
    forall i | 0 <= i < |d.legs| ensures LinksStay(d.legs[i], e.legs[i]) {
      assert e.legs[i] == d.legs[i] || LegEdit(d.legs[i], e.legs[i]);
    }
    StayingKeepsLinks(d.legs, e.legs, origin);
  }

  ghost predicate BothLinked(w: World, origin: Ref -> Option<Ref>) {
    LinksOk(w.db.legs, origin) && LinksOk(w.ses.legs, origin)
  }

  lemma StepKeepsLinks(cfg: RiskCfg, w: World, v: World, e: Event, origin: Ref -> Option<Ref>)
    requires Inv(cfg, w) && Step(cfg, w, v, e) && Truthful(w, e, origin) && BothLinked(w, origin)
    ensures BothLinked(v, origin)
  {
    match e
    case HandOver(_, legs) =>
      forall i | 0 <= i < |legs| ensures NewLeg(w.db.legs + legs[..i], legs[i], origin) {
        NewToDurable(w.db, w.ses, legs[..i], legs[i], origin);
      }
      BatchKeeps(w.db.legs, legs, origin);
      BatchKeeps(w.ses.legs, legs, origin);
    case Pass(t, snap, ids, _) => PassKeepsLinks(CtxFor(w.ses, t, snap), ScanOf(w.ses), ids, origin);
    case Edit(t, edited) => EditKeepsLinks(w.ses, edited, t, origin);
    case Place(reply, now) => PlaceKeepsLinks(w.ses.legs, w.drive.todo[0], reply, now, origin);
    case _ =>
  }

  ghost predicate TruthfulRun(ws: seq<World>, es: seq<Event>, origin: Ref -> Option<Ref>)
    requires |ws| == |es| + 1
  {
    forall k :: 0 <= k < |es| ==> Truthful(ws[k], es[k], origin)
  }

  /** In every world of a truthful run, links are unique and each open leg is on its own order. */
  lemma {:induction false} RunKeepsLinks(cfg: RiskCfg, ws: seq<World>, es: seq<Event>, k: nat,
                                         origin: Ref -> Option<Ref>)
    requires Run(cfg, ws, es) && k < |ws| && TruthfulRun(ws, es, origin)
    ensures BothLinked(ws[k], origin)
  {
    if k > 0 {
      RunKeepsLinks(cfg, ws, es, k - 1, origin);
      RunKeeps(cfg, ws, es, k - 1);
      assert StepAt(cfg, ws, es, k - 1);
      StepKeepsLinks(cfg, ws[k - 1], ws[k], es[k - 1], origin);
    }
  }

  /** No two open legs of any trades ever share a broker position, nor a closed one and an open one. */
  lemma OnePositionOneLeg(cfg: RiskCfg, ws: seq<World>, es: seq<Event>, k: nat, origin: Ref -> Option<Ref>,
                          i: nat, j: nat, p: Ref)
    requires Run(cfg, ws, es) && k < |ws| && TruthfulRun(ws, es, origin)
    requires i < |ws[k].db.legs| && j < |ws[k].db.legs| && Holds(ws[k].db.legs[i], p) && Holds(ws[k].db.legs[j], p)
    ensures i == j
  {
    RunKeepsLinks(cfg, ws, es, k, origin);
  }

  /** The proviso on guesses costs nothing with an adapter that keeps to the declared direction type. */
  lemma DeclaredDirectionsTruthful(w: World, t: nat, snap: Snapshot, ids: seq<nat>, cut: bool,
                                   origin: Ref -> Option<Ref>)
    requires Managed(w.ses, t) && LegsOfTrade(w.ses, t, ids) && Honest(snap, w.ses.legs, origin)
    requires forall k :: 0 <= k < |snap.positions|
               ==> snap.positions[k].direction in ["Direction.LONG", "Direction.SHORT"]
    ensures Truthful(w, Pass(t, snap, ids, cut), origin)
  {
    DeclaredDirectionsSafe(CtxFor(w.ses, t, snap), ScanOf(w.ses), ids, origin);
  }

  // ---- without the proviso: exactly when it fails ------------------------------------------------

  ghost predicate BothUnique(w: World) { OneLegPerPosition(w.db.legs) && OneLegPerPosition(w.ses.legs) }

  /** Some visit of the pass links a leg by its order to a position already linked. */
  ghost predicate Doubling(w: World, e: Event) {
    && e.Pass? && Managed(w.ses, e.t) && LegsOfTrade(w.ses, e.t, e.ids)
    && !NoneDoubles(CtxFor(w.ses, e.t, e.snap), ScanOf(w.ses), e.ids, |e.ids|)
  }

  lemma PassUniqueExactly(d: Db, t: nat, snap: Snapshot, ids: seq<nat>, cut: bool, origin: Ref -> Option<Ref>)
    requires WellFormed(d) && Managed(d, t) && LegsOfTrade(d, t, ids) && OneLegPerPosition(d.legs)
    requires Honest(snap, d.legs, origin)
    ensures OneLegPerPosition(Reconciled(d, t, snap, ids, cut).legs)
       <==> NoneDoubles(CtxFor(d, t, snap), ScanOf(d), ids, |ids|)
  {
    var c, s := CtxFor(d, t, snap), ScanOf(d);
    forall p | p in s.linked ensures HeldOpen(s.legs, p) {}
    assert ids[..|ids|] == ids;
    DoublesExactly(c, s, ids, |ids|);
  }

  lemma AppendUnique(legs: seq<Leg>, l: Leg, origin: Ref -> Option<Ref>)
    requires OneLegPerPosition(legs) && NewLeg(legs, l, origin)
    ensures OneLegPerPosition(legs + [l])
  {}

  lemma {:induction false} BatchUnique(legs: seq<Leg>, batch: seq<Leg>, origin: Ref -> Option<Ref>)
    requires OneLegPerPosition(legs)
    requires forall i :: 0 <= i < |batch| ==> NewLeg(legs + batch[..i], batch[i], origin)
    ensures OneLegPerPosition(legs + batch)
  {
    if batch == [] {
      assert legs + batch == legs;
    } else {
      var n := |batch| - 1;
      var init := batch[..n];
      forall i | 0 <= i < n ensures NewLeg(legs + init[..i], init[i], origin) {
        assert init[..i] == batch[..i];
      }
      BatchUnique(legs, init, origin);
      AppendUnique(legs + init, batch[n], origin);
      assert legs + init + [batch[n]] == legs + batch;
    }
  }

  lemma PlaceUnique(legs: seq<Leg>, i: nat, reply: Reply, now: int, origin: Ref -> Option<Ref>)
    requires OneLegPerPosition(legs) && i < |legs| && legs[i].status.Staged? && LegOk(legs[i])
    requires reply.Accepted? ==> NewRef(legs, reply.ref, legs[i].kind.Market?, origin)
    ensures OneLegPerPosition(legs[i := PlacedLeg(legs[i], reply, now)])
  {}

  lemma EditUnique(d: Db, e: Db, t: nat)
    requires EditOk(d, e, t) && OneLegPerPosition(d.legs)
    ensures OneLegPerPosition(e.legs)
  {
    forall i, p | 0 <= i < |d.legs| && Holds(e.legs[i], p) ensures Holds(d.legs[i], p) {
      assert e.legs[i] == d.legs[i] || LegEdit(d.legs[i], e.legs[i]);
    }
  }

  lemma StepUniqueExactly(cfg: RiskCfg, w: World, v: World, e: Event, origin: Ref -> Option<Ref>)
    requires Inv(cfg, w) && Step(cfg, w, v, e) && Honestly(w, e, origin) && BothUnique(w)
    ensures BothUnique(v) <==> !Doubling(w, e)
  {
    match e
    case HandOver(_, legs) =>
      forall i | 0 <= i < |legs| ensures NewLeg(w.db.legs + legs[..i], legs[i], origin) {
        NewToDurable(w.db, w.ses, legs[..i], legs[i], origin);
      }
      BatchUnique(w.db.legs, legs, origin);
      BatchUnique(w.ses.legs, legs, origin);
    case Pass(t, snap, ids, cut) => PassUniqueExactly(w.ses, t, snap, ids, cut, origin);
    case Edit(t, edited) => EditUnique(w.ses, edited, t);
    case Place(reply, now) => PlaceUnique(w.ses.legs, w.drive.todo[0], reply, now, origin);
    case _ =>
  }

  ghost predicate HonestRun(ws: seq<World>, es: seq<Event>, origin: Ref -> Option<Ref>)
    requires |ws| == |es| + 1
  {
    forall k :: 0 <= k < |es| ==> Honestly(ws[k], es[k], origin)
  }

  lemma {:induction false} UniqueWhile(cfg: RiskCfg, ws: seq<World>, es: seq<Event>, k: nat, origin: Ref -> Option<Ref>)
    requires Run(cfg, ws, es) && k < |ws| && HonestRun(ws, es, origin)
    requires forall m :: 0 <= m < k ==> !Doubling(ws[m], es[m])
    ensures BothUnique(ws[k])
  {
    if k > 0 {
      UniqueWhile(cfg, ws, es, k - 1, origin);
      RunKeeps(cfg, ws, es, k - 1);
      assert StepAt(cfg, ws, es, k - 1);
      StepUniqueExactly(cfg, ws[k - 1], ws[k], es[k - 1], origin);
    }
  }

  /** Over every run with an honest broker, whatever is guessed: links stay unique up to a world exactly
      when no pass before it linked a leg by its order to a position already linked. */
  lemma UniqueExactly(cfg: RiskCfg, ws: seq<World>, es: seq<Event>, k: nat, origin: Ref -> Option<Ref>)
    requires Run(cfg, ws, es) && k < |ws| && HonestRun(ws, es, origin)
    ensures (forall m :: 0 <= m <= k ==> BothUnique(ws[m])) <==> (forall m :: 0 <= m < k ==> !Doubling(ws[m], es[m]))
  {
    if forall m :: 0 <= m <= k ==> BothUnique(ws[m]) {
      forall m | 0 <= m < k ensures !Doubling(ws[m], es[m]) {
        RunKeeps(cfg, ws, es, m);
        assert StepAt(cfg, ws, es, m);
        StepUniqueExactly(cfg, ws[m], ws[m + 1], es[m], origin);
      }
    } else if forall m :: 0 <= m < k ==> !Doubling(ws[m], es[m]) {
      forall m | 0 <= m <= k ensures BothUnique(ws[m]) {
        UniqueWhile(cfg, ws, es, m, origin);
      }
    }
  }

  // ---- a run on which it fails -------------------------------------------------------------------

  const TWICE := Trade(0, 0, "GOLD", Buy, 1.0, 0, false, Live, None, 0.0)
  const FIRST := Leg(0, 1, Limit, 100.0, 110.0, 1.0, 90.0, 90.0, false, Working, Some(10), None, None, 0, None)
  const SECOND := FIRST.(tpIndex := 2, orderRef := Some(11))
  const FILLED := Pos(77, Some(11), "BUY", true, None)
  const SHOWS := Snapshot([FILLED], {}, [], map[], 105.0, Some(1.0), 1.0, 60, 60, None)

  /** Position 77 was born from order 11, and no other from any order. */
  function Born(p: Ref): Option<Ref> { if p == 77 then Some(11) else None }

  function Both(a: Leg, b: Leg): Db { Db([TWICE], [], [a, b]) }

  function Still(db: Db, ses: Db): World { World(db, ses, Idle, None, multiset{}, {}) }

  /** What the broker shows: no position of order 10, one of order 11. */
  lemma Showing()
    ensures FilledBy(SHOWS.positions, Some(10)) == None && FilledBy(SHOWS.positions, Some(11)) == Some(FILLED)
    ensures Guess(Buy, SHOWS.positions, {}) == Some(FILLED)
  {
    assert EndsWith("BUY", SideName(Buy)) && FilledBy([], Some(10)) == None;
  }

  /** The first leg guesses the position, and the second finds it to be its own. */
  lemma FirstLinks(c: Ctx, s: Scan)
    requires c.side == Buy && c.snap == SHOWS && s == Scan([FIRST, SECOND], [], {}, {})
    ensures VisitLeg(c, s, 0) == Scan([Link(FIRST, FILLED), SECOND], [], {}, {77})
  {
    Showing();
  }

  lemma SecondLinks(c: Ctx, s: Scan)
    requires c.side == Buy && c.snap == SHOWS && s == Scan([Link(FIRST, FILLED), SECOND], [], {}, {77})
    ensures VisitLeg(c, s, 1) == Scan([Link(FIRST, FILLED), Link(SECOND, FILLED)], [], {}, {77})
  {
    Showing();
  }

  lemma BothLink(cfg: RiskCfg)
    ensures Step(cfg, Still(Both(FIRST, SECOND), Both(FIRST, SECOND)),
                 Still(Both(FIRST, SECOND), Both(Link(FIRST, FILLED), Link(SECOND, FILLED))),
                 Pass(0, SHOWS, [0, 1], false))
  {
    var d := Both(FIRST, SECOND);
    var c, s := CtxFor(d, 0, SHOWS), ScanOf(d);
    assert s == Scan([FIRST, SECOND], [], {}, {});
    FirstLinks(c, s);
    SecondLinks(c, VisitLeg(c, s, 0));
    assert [0, 1][..1] == [0] && [0][..0] == [];
    assert Visits(c, s, []) == s && Visits(c, s, [0]) == VisitLeg(c, s, 0);
    assert Visits(c, s, [0, 1]) == VisitLeg(c, Visits(c, s, [0]), 1);
  }

  lemma BothGood()
    ensures GoodBatch(0, 0, [], [FIRST, SECOND])
    ensures NewLeg([], FIRST, Born) && NewLeg([FIRST], SECOND, Born)
  {}

  lemma BothPlaced(cfg: RiskCfg)
    requires !cfg.halted && !cfg.enabled
    ensures var drafted, d := EMPTY.(draft := Some(TWICE)), Both(FIRST, SECOND);
            && Step(cfg, EMPTY, drafted, Check(TWICE, 0.0))
            && Step(cfg, drafted, Still(d, d), HandOver([], [FIRST, SECOND]))
  {
    BothGood();
  }

  lemma BothHonest()
    ensures Honestly(EMPTY.(draft := Some(TWICE)), HandOver([], [FIRST, SECOND]), Born)
    ensures var d := Both(FIRST, SECOND); Honestly(Still(d, d), Pass(0, SHOWS, [0, 1], false), Born)
  {
    BothGood();
    var legs := [FIRST, SECOND];
    assert legs[..0] == [] && legs[..1] == [FIRST];
  }

  lemma BothRun(cfg: RiskCfg) returns (ws: seq<World>, es: seq<Event>)
    requires !cfg.halted && !cfg.enabled
    ensures Run(cfg, ws, es)
    ensures var d, e := Both(FIRST, SECOND), Both(Link(FIRST, FILLED), Link(SECOND, FILLED));
            && ws == [EMPTY, EMPTY.(draft := Some(TWICE)), Still(d, d), Still(d, e), Still(e, e)]
            && es == [Check(TWICE, 0.0), HandOver([], [FIRST, SECOND]), Pass(0, SHOWS, [0, 1], false),
                      CommitAll(Applied)]
  {
    var d, e := Both(FIRST, SECOND), Both(Link(FIRST, FILLED), Link(SECOND, FILLED));
    ws := [EMPTY, EMPTY.(draft := Some(TWICE)), Still(d, d), Still(d, e), Still(e, e)];
    es := [Check(TWICE, 0.0), HandOver([], [FIRST, SECOND]), Pass(0, SHOWS, [0, 1], false), CommitAll(Applied)];
    BothPlaced(cfg);
    BothLink(cfg);
    assert StepAt(cfg, ws, es, 0) && StepAt(cfg, ws, es, 1) && StepAt(cfg, ws, es, 2) && StepAt(cfg, ws, es, 3);
  }

  /** Position 77 on two legs, durably. The broker lists truthfully: only the guess is wrong. It takes an
      adapter that prints directions as BUY and SELL, which is outside its declared type. */
  lemma TwoLegsOnePosition(cfg: RiskCfg) returns (ws: seq<World>, es: seq<Event>)
    requires !cfg.halted && !cfg.enabled
    ensures Run(cfg, ws, es) && HonestRun(ws, es, Born)
    ensures var legs := ws[|es|].db.legs;
            |legs| == 2 && legs[0].status.Open? && legs[1].status.Open? && Holds(legs[0], 77) && Holds(legs[1], 77)
  {
    ws, es := BothRun(cfg);
    BothHonest();
    forall k | 0 <= k < |es| ensures Honestly(ws[k], es[k], Born) {}
  }
}
