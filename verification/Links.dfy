/**
 What one reconciliation pass keeps: rows evolve, a resting order is never closed on another leg's
 transaction, money comes only from the leg's own close, and one position belongs to one leg.
 */
module Links {
  import opened Wrappers
  import opened Prices
  import opened StopRules
  import opened Rows
  import opened Reconcile

  // ---- rows evolve -----------------------------------------------------------------------------

  lemma VisitEvolves(c: Ctx, s: Scan, i: nat, j: nat)
    requires i < |s.legs| && j < |s.legs| && LegOk(s.legs[i])
    ensures var t := VisitLeg(c, s, i);
            LegEvolves(c.side, s.legs[j], t.legs[j])
            && (LegOk(s.legs[j]) ==> LegOk(t.legs[j])) && (j != i ==> t.legs[j] == s.legs[j])
  {}

  lemma {:induction false} PassEvolves(c: Ctx, s: Scan, ids: seq<nat>, j: nat)
    requires InRange(ids, |s.legs|) && j < |s.legs| && LegsOk(s.legs)
    ensures LegsOk(Visits(c, s, ids).legs)
    ensures LegEvolves(c.side, s.legs[j], Visits(c, s, ids).legs[j])
    ensures j !in ids ==> Visits(c, s, ids).legs[j] == s.legs[j]
  {
    if ids != [] {
      var init, i := ids[..|ids| - 1], ids[|ids| - 1];
      var mid := Visits(c, s, init);
      PassEvolves(c, s, init, j);
      assert ids == init + [i];
      forall k | 0 <= k < |s.legs| ensures LegOk(VisitLeg(c, mid, i).legs[k]) {
        VisitEvolves(c, mid, i, k);
      }
      VisitEvolves(c, mid, i, j);
    }
  }

  /** The pass resolves tranches of the legs it visits and sends none back to waiting. */
  lemma {:induction false} PassTranches(c: Ctx, s: Scan, ids: seq<nat>, r: nat)
    requires InRange(ids, |s.legs|) && r < |s.tranches|
    ensures var t := Visits(c, s, ids).tranches[r];
            && TrancheEvolves(s.tranches[r], t)
            && (t != s.tranches[r] ==> !t.state.Waiting? && !t.state.Deploying?)
            && ((forall k :: 0 <= k < |ids| ==> ids[k] !in s.tranches[r].legs) ==> t == s.tranches[r])
  {
    if ids != [] {
      PassTranches(c, s, ids[..|ids| - 1], r);
    }
  }

  /** Leg `i`'s order still rests and its position was never seen. */
  predicate RestsUnlinked(c: Ctx, l: Leg) { l.status.Working? && l.posRef.None? && Resting(c, l) }

  lemma RestingVisit(c: Ctx, s: Scan, i: nat)
    requires i < |s.legs| && (RestsUnlinked(c, s.legs[i]) || Terminal(s.legs[i].status))
    ensures var t := VisitLeg(c, s, i);
            && t.used == s.used
            && t.legs[i] == if s.legs[i].status.Working? && Overdue(c, i, s.legs[i])
                            then s.legs[i].(status := Expired) else s.legs[i]
  {}

  lemma VisitOther(c: Ctx, s: Scan, i: nat, j: nat)
    requires i < |s.legs| && j < |s.legs| && i != j
    ensures VisitLeg(c, s, i).legs[j] == s.legs[j]
  {}

  lemma {:induction false} RestingStays(c: Ctx, s: Scan, ids: seq<nat>, i: nat)
    requires InRange(ids, |s.legs|) && i < |s.legs| && RestsUnlinked(c, s.legs[i])
    ensures Visits(c, s, ids).legs[i]
         == if i in ids && Overdue(c, i, s.legs[i]) then s.legs[i].(status := Expired) else s.legs[i]
  {
    if ids != [] {
      var init, j := ids[..|ids| - 1], ids[|ids| - 1];
      RestingStays(c, s, init, i);
      assert i in ids <==> i in init || i == j;
      if j == i {
        RestingVisit(c, Visits(c, s, init), i);
      } else {
        VisitOther(c, Visits(c, s, init), j, i);
      }
    }
  }

  /** Visit `k` of the pass consumed no history row. */
  predicate SameUsed(c: Ctx, s: Scan, ids: seq<nat>, k: nat)
    requires InRange(ids, |s.legs|) && k < |ids|
  {
    Visits(c, s, ids[..k + 1]).used == Visits(c, s, ids[..k]).used
  }

  /** Over a whole pass, whatever the other legs do in it, a resting order whose position was never seen
      stays or expires and never closes; and no visit of it consumes a transaction. */
  lemma RestingOnlyExpires(c: Ctx, s: Scan, ids: seq<nat>, i: nat)
    requires InRange(ids, |s.legs|) && i < |s.legs| && RestsUnlinked(c, s.legs[i])
    ensures Visits(c, s, ids).legs[i]
         == if i in ids && Overdue(c, i, s.legs[i]) then s.legs[i].(status := Expired) else s.legs[i]
    ensures forall k :: 0 <= k < |ids| && ids[k] == i ==> SameUsed(c, s, ids, k)
  {
    RestingStays(c, s, ids, i);
    forall k | 0 <= k < |ids| && ids[k] == i ensures SameUsed(c, s, ids, k) {
      assert ids[..k + 1][..k] == ids[..k];
      RestingStays(c, s, ids[..k], i);
      RestingVisit(c, Visits(c, s, ids[..k]), i);
    }
  }

  // ---- money -----------------------------------------------------------------------------------

  /** A row of amount `paid` may put `booked` on a leg that closed on `outcome`: the same amount, a loss when
      the leg was stopped out, and the row's own sign in every other case. */
  predicate BookedFor(paid: real, outcome: Outcome, booked: real) {
    && (booked == paid || booked == -paid)
    && (outcome.SlHit? ==> booked <= 0.0)
    && (!outcome.SlHit? || paid <= 0.0 ==> booked == paid)
  }

  /** Transaction `k` is the closing row of the leg's own position, and its amount what the leg books. */
  predicate SettledBy(txns: seq<Txn>, k: nat, leg: Leg) {
    && k < |txns| && txns[k].closes && leg.posRef.Some? && txns[k].deal == leg.posRef && leg.close.Some?
    && var close := leg.close.value;
       if txns[k].pl.None? then close.pl.None?
       else close.pl.Some? && BookedFor(txns[k].pl.value, close.outcome, close.pl.value)
  }

  /** What a close may say about money: settled by this leg's own unconsumed row, estimated when no
      row was left for it, or nothing at all. */
  lemma CloseMoney(c: Ctx, s: Scan, i: nat)
    requires i < |s.legs| && LegOk(s.legs[i])
    requires !s.legs[i].status.Closed? && VisitLeg(c, s, i).legs[i].status.Closed?
    ensures var t := VisitLeg(c, s, i);
            var leg := t.legs[i];
            match leg.close.value.basis
            case Some(Exact) =>
              exists k: nat :: k !in s.used && t.used == s.used + {k} && SettledBy(c.snap.txns, k, leg)
            case Some(Unattributed) => leg.posRef.None? && leg.close.value.pl.None?
            case Some(Heuristic) =>
              leg.posRef.Some? && t.used == s.used
              && (forall k :: 0 <= k < |c.snap.txns| && k !in s.used && c.snap.txns[k].closes
                    ==> c.snap.txns[k].deal != leg.posRef)
            case _ => false
  {}

  // ---- one position, one leg -------------------------------------------------------------------

  /** The leg that a broker position's money will be booked on, or was. */
  predicate Holds(l: Leg, p: Ref) {
    (l.status.Open? || l.status.Closed?) && l.posRef == Some(p)
  }

  ghost predicate OneLegPerPosition(legs: seq<Leg>) {
    forall i, j, p :: 0 <= i < |legs| && 0 <= j < |legs| && Holds(legs[i], p) && Holds(legs[j], p) ==> i == j
  }

  ghost predicate OneLegPerOrder(legs: seq<Leg>) {
    forall i, j :: 0 <= i < |legs| && 0 <= j < |legs| && legs[i].orderRef.Some? && legs[i].orderRef == legs[j].orderRef
      ==> i == j
  }

  /** Position `p` was born from no other working leg's order. `origin` is the broker's fixed record. */
  ghost predicate NotAnothers(legs: seq<Leg>, i: nat, p: Ref, origin: Ref -> Option<Ref>) {
    origin(p).Some?
    ==> forall j :: 0 <= j < |legs| && j != i && legs[j].status.Working? ==> legs[j].orderRef != origin(p)
  }

  ghost predicate OpenOnOwnOrders(legs: seq<Leg>, origin: Ref -> Option<Ref>) {
    forall i, p :: 0 <= i < |legs| && legs[i].status.Open? && legs[i].posRef == Some(p)
      ==> NotAnothers(legs, i, p, origin)
  }

  ghost predicate LinksOk(legs: seq<Leg>, origin: Ref -> Option<Ref>) {
    LegsOk(legs) && OneLegPerPosition(legs) && OneLegPerOrder(legs) && OpenOnOwnOrders(legs, origin)
  }

  /** The broker's listing: origins are as recorded, and a position that closed does not come back. */
  ghost predicate Honest(snap: Snapshot, legs: seq<Leg>, origin: Ref -> Option<Ref>) {
    && (forall k :: 0 <= k < |snap.positions| ==> snap.positions[k].order == origin(snap.positions[k].ref))
    && (forall k, i :: 0 <= k < |snap.positions| && 0 <= i < |legs| && legs[i].status.Closed?
          ==> legs[i].posRef != Some(snap.positions[k].ref))
  }

  ghost predicate LinkedCovers(linked: set<Ref>, legs: seq<Leg>) {
    forall i, p :: 0 <= i < |legs| && legs[i].status.Open? && legs[i].posRef == Some(p) ==> p in linked
  }

  /** A guessed position must not be the fill of some other working leg's order. */
  ghost predicate GuessSafe(c: Ctx, s: Scan, i: nat, origin: Ref -> Option<Ref>)
    requires i < |s.legs|
  {
    s.legs[i].status.Working? && !Resting(c, s.legs[i]) && FilledBy(c.snap.positions, s.legs[i].orderRef).None?
    ==> var g := Guess(c.side, c.snap.positions, s.linked);
        g.Some? ==> NotAnothers(s.legs, i, g.value.ref, origin)
  }

  ghost predicate GuessesSafe(c: Ctx, s: Scan, ids: seq<nat>, origin: Ref -> Option<Ref>)
    requires InRange(ids, |s.legs|)
  {
    forall k :: 0 <= k < |ids| ==> GuessSafe(c, Visits(c, s, ids[..k]), ids[k], origin)
  }

  /** Linking leg `i` to a position nobody holds and no other leg's order filled. */
  lemma LinkKeeps(legs: seq<Leg>, i: nat, p: Pos, origin: Ref -> Option<Ref>)
    requires i < |legs| && LinksOk(legs, origin) && legs[i].status.Working?
    requires forall j :: 0 <= j < |legs| && j != i ==> !Holds(legs[j], p.ref)
    requires NotAnothers(legs, i, p.ref, origin)
    ensures LinksOk(legs[i := Link(legs[i], p)], origin)
  {}

  /** Any other row change of the pass: links stay put and statuses only fall. */
  lemma FallKeeps(legs: seq<Leg>, i: nat, l: Leg, origin: Ref -> Option<Ref>)
    requires i < |legs| && LinksOk(legs, origin) && LegOk(l)
    requires l.posRef == legs[i].posRef && l.orderRef == legs[i].orderRef
    requires !l.status.Open? && (l.status.Closed? && l.posRef.Some? ==> legs[i].status.Open?)
    requires l.status.Working? ==> legs[i].status.Working?
    ensures LinksOk(legs[i := l], origin)
  {}

  /** What the pass maintains between legs. */
  ghost predicate ScanOk(c: Ctx, s: Scan, origin: Ref -> Option<Ref>) {
    LinksOk(s.legs, origin) && Honest(c.snap, s.legs, origin) && LinkedCovers(s.linked, s.legs)
  }

  lemma VisitKeepsLinks(c: Ctx, s: Scan, i: nat, origin: Ref -> Option<Ref>)
    requires i < |s.legs| && ScanOk(c, s, origin) && GuessSafe(c, s, i, origin)
    ensures ScanOk(c, VisitLeg(c, s, i), origin)
  {
    var leg, t := s.legs[i], VisitLeg(c, s, i);
    if t.legs == s.legs {
    } else if t.legs[i].status.Open? {
      var p := LinkFor(c, s.linked, leg).value;
      assert forall j :: 0 <= j < |s.legs| && s.legs[j].status.Closed? ==> s.legs[j].posRef != Some(p.ref);
      if FilledBy(c.snap.positions, leg.orderRef).Some? {
        assert origin(p.ref) == leg.orderRef;
        forall j: nat | j < |s.legs| && j != i ensures !Holds(s.legs[j], p.ref) {
          assert s.legs[j].status.Open? && s.legs[j].posRef == Some(p.ref) ==> NotAnothers(s.legs, j, p.ref, origin);
        }
      }
      LinkKeeps(s.legs, i, p, origin);
    } else {
      FallKeeps(s.legs, i, t.legs[i], origin);
      assert Honest(c.snap, t.legs, origin);
    }
  }

  /** One pass keeps one leg per position, provided no guess takes another working leg's fill. */
  lemma {:induction false} PassKeepsLinks(c: Ctx, s: Scan, ids: seq<nat>, origin: Ref -> Option<Ref>)
    requires InRange(ids, |s.legs|) && ScanOk(c, s, origin) && GuessesSafe(c, s, ids, origin)
    ensures ScanOk(c, Visits(c, s, ids), origin)
  {
    if ids != [] {
      var init := ids[..|ids| - 1];
      assert forall k :: 0 <= k < |init| ==> init[..k] == ids[..k];
      PassKeepsLinks(c, s, init, origin);
      VisitKeepsLinks(c, Visits(c, s, init), ids[|ids| - 1], origin);
    }
  }

  /** What a visit maintains for the visits to come, it maintains if and only if its guess, should it come
      to one, is no other working leg's fill. */
  lemma VisitKeepsLinksExactly(c: Ctx, s: Scan, i: nat, origin: Ref -> Option<Ref>)
    requires i < |s.legs| && ScanOk(c, s, origin)
    ensures ScanOk(c, VisitLeg(c, s, i), origin) <==> GuessSafe(c, s, i, origin)
  {
    if GuessSafe(c, s, i, origin) {
      VisitKeepsLinks(c, s, i, origin);
    } else {
      var p := Guess(c.side, c.snap.positions, s.linked).value;
      var legs := VisitLeg(c, s, i).legs;
      assert legs[i] == Link(s.legs[i], p);
      var j :| 0 <= j < |s.legs| && j != i && s.legs[j].status.Working? && s.legs[j].orderRef == origin(p.ref);
      assert legs[j].orderRef == origin(p.ref) && legs[j].status.Working?;
      assert !NotAnothers(legs, i, p.ref, origin);
    }
  }

  // ---- exactly when a pass puts one position on two legs -----------------------------------------

  /** Visiting leg `i` links it to position `p` by a guess, respectively by its own order. */
  predicate GuessesRef(c: Ctx, s: Scan, i: nat, p: Ref)
    requires i < |s.legs|
  {
    && s.legs[i].status.Working? && !Resting(c, s.legs[i]) && FilledBy(c.snap.positions, s.legs[i].orderRef).None?
    && var g := Guess(c.side, c.snap.positions, s.linked);
       g.Some? && g.value.ref == p
  }

  predicate LinksOwn(c: Ctx, l: Leg, p: Ref) {
    && l.status.Working? && !Resting(c, l)
    && var own := FilledBy(c.snap.positions, l.orderRef);
       own.Some? && own.value.ref == p
  }

  /** Visit `k` of the pass guesses `p`, respectively links its leg to `p` by its order. */
  predicate GuessedAt(c: Ctx, s: Scan, ids: seq<nat>, k: nat, p: Ref)
    requires InRange(ids, |s.legs|) && k < |ids|
  {
    GuessesRef(c, After(c, s, ids, k), ids[k], p)
  }

  predicate OwnedAt(c: Ctx, s: Scan, ids: seq<nat>, k: nat, p: Ref)
    requires InRange(ids, |s.legs|) && k < |ids|
  {
    LinksOwn(c, After(c, s, ids, k).legs[ids[k]], p)
  }

  /** One visit guesses a position that a later visit of the pass finds to be its own leg's fill. */
  ghost predicate Clash(c: Ctx, s: Scan, ids: seq<nat>)
    requires InRange(ids, |s.legs|)
  {
    exists j, k, p :: 0 <= j < k < |ids| && GuessedAt(c, s, ids, j, p) && OwnedAt(c, s, ids, k, p)
  }

  /** Held positions that are some working leg's fill were guessed. */
  ghost predicate HeldWereGuessed(c: Ctx, legs: seq<Leg>, guessed: set<Ref>) {
    forall i, j, p ::
      0 <= i < |legs| && 0 <= j < |legs| && Holds(legs[i], p) && LinksOwn(c, legs[j], p) ==> p in guessed
  }

  /** What a pass keeps without any proviso, as long as no leg is linked to a position another one holds. */
  ghost predicate Unclashed(c: Ctx, s: Scan, guessed: set<Ref>, origin: Ref -> Option<Ref>) {
    && LegsOk(s.legs) && OneLegPerPosition(s.legs) && OneLegPerOrder(s.legs)
    && Honest(c.snap, s.legs, origin) && LinkedCovers(s.linked, s.legs) && HeldWereGuessed(c, s.legs, guessed)
  }

  ghost predicate OwnsListed(c: Ctx, l: Leg, p: Ref, origin: Ref -> Option<Ref>) {
    && l.orderRef.Some? && origin(p) == l.orderRef
    && exists k :: 0 <= k < |c.snap.positions| && c.snap.positions[k].ref == p
  }

  lemma OwnIsListed(c: Ctx, legs: seq<Leg>, i: nat, p: Ref, origin: Ref -> Option<Ref>)
    requires Honest(c.snap, legs, origin) && i < |legs| && LinksOwn(c, legs[i], p)
    ensures OwnsListed(c, legs[i], p, origin)
  {
    var own := FilledBy(c.snap.positions, legs[i].orderRef).value;
    var k :| 0 <= k < |c.snap.positions| && c.snap.positions[k] == own;
  }

  lemma StartsUnclashed(c: Ctx, s: Scan, origin: Ref -> Option<Ref>)
    requires ScanOk(c, s, origin)
    ensures Unclashed(c, s, {}, origin)
  {
    forall j, p | 0 <= j < |s.legs| && LinksOwn(c, s.legs[j], p) ensures OwnsListed(c, s.legs[j], p, origin) {
      OwnIsListed(c, s.legs, j, p, origin);
    }
    forall i, p | 0 <= i < |s.legs| && s.legs[i].status.Open? && s.legs[i].posRef == Some(p)
      ensures NotAnothers(s.legs, i, p, origin)
    {}
  }

  ghost function GuessedBy(c: Ctx, s: Scan, i: nat): set<Ref>
    requires i < |s.legs|
  {
    var g := Guess(c.side, c.snap.positions, s.linked);
    if g.Some? && GuessesRef(c, s, i, g.value.ref) then {g.value.ref} else {}
  }

  /** Linking leg `i` to a listed position nobody holds. */
  lemma LinkUnclashed(c: Ctx, s: Scan, i: nat, p: Pos, guessed: set<Ref>, origin: Ref -> Option<Ref>)
    requires i < |s.legs| && Unclashed(c, s, guessed, origin) && s.legs[i].status.Working? && p in c.snap.positions
    requires forall j :: 0 <= j < |s.legs| ==> !Holds(s.legs[j], p.ref)
    requires LinksOwn(c, s.legs[i], p.ref) || p.ref in guessed
    ensures Unclashed(c, s.(legs := s.legs[i := Link(s.legs[i], p)], linked := s.linked + {p.ref}), guessed, origin)
  {
    var legs := s.legs[i := Link(s.legs[i], p)];
    forall j, m, q | 0 <= j < |legs| && 0 <= m < |legs| && Holds(legs[j], q) && LinksOwn(c, legs[m], q)
      ensures q in guessed
    {
      assert m != i && LinksOwn(c, s.legs[m], q);
      if j == i {
        OwnIsListed(c, s.legs, m, q, origin);
        if LinksOwn(c, s.legs[i], q) {
          OwnIsListed(c, s.legs, i, q, origin);
          assert false;
        }
      } else {
        assert Holds(s.legs[j], q);
      }
    }
  }

  /** Any other row change of the pass: a position that goes is no longer listed. */
  lemma FallUnclashed(c: Ctx, s: Scan, i: nat, l: Leg, guessed: set<Ref>, origin: Ref -> Option<Ref>)
    requires i < |s.legs| && Unclashed(c, s, guessed, origin) && LegOk(l)
    requires l.posRef == s.legs[i].posRef && l.orderRef == s.legs[i].orderRef && Terminal(l.status)
    requires l.status.Closed? && l.posRef.Some? ==> s.legs[i].status.Open? && Gone(c, s.legs[i])
    ensures Unclashed(c, s.(legs := s.legs[i := l]), guessed, origin)
  {
    var legs := s.legs[i := l];
    forall j, m, q | 0 <= j < |legs| && 0 <= m < |legs| && Holds(legs[j], q) && LinksOwn(c, legs[m], q)
      ensures q in guessed
    {
      assert LinksOwn(c, s.legs[m], q) && Holds(s.legs[j], q);
    }
  }

  /** A visit clashes only when it links its leg to a position guessed before. */
  lemma VisitUnclashed(c: Ctx, s: Scan, i: nat, guessed: set<Ref>, origin: Ref -> Option<Ref>)
    requires i < |s.legs| && Unclashed(c, s, guessed, origin)
    requires forall p :: LinksOwn(c, s.legs[i], p) ==> p !in guessed
    ensures Unclashed(c, VisitLeg(c, s, i), guessed + GuessedBy(c, s, i), origin)
  {
    var leg, t, more := s.legs[i], VisitLeg(c, s, i), guessed + GuessedBy(c, s, i);
    assert Unclashed(c, s, more, origin);
    if leg.status.Working? && !Resting(c, leg) && LinkFor(c, s.linked, leg).Some? {
      var p := LinkFor(c, s.linked, leg).value;
      assert LinksOwn(c, leg, p.ref) || (GuessesRef(c, s, i, p.ref) && p.ref in more && p.ref !in s.linked);
      LinkUnclashed(c, s, i, p, more, origin);
    } else if t.legs != s.legs {
      FallUnclashed(c, s, i, t.legs[i], more, origin);
    }
  }

  /** What the first `n` visits guessed. */
  ghost function GuessedSoFar(c: Ctx, s: Scan, ids: seq<nat>, n: nat): set<Ref>
    requires InRange(ids, |s.legs|) && n <= |ids|
  {
    if n == 0 then {} else GuessedSoFar(c, s, ids, n - 1) + GuessedBy(c, After(c, s, ids, n - 1), ids[n - 1])
  }

  lemma {:induction false} GuessedOnVisit(c: Ctx, s: Scan, ids: seq<nat>, n: nat, p: Ref) returns (j: nat)
    requires InRange(ids, |s.legs|) && n <= |ids| && p in GuessedSoFar(c, s, ids, n)
    ensures j < n && GuessedAt(c, s, ids, j, p)
    decreases n
  {
    if p in GuessedBy(c, After(c, s, ids, n - 1), ids[n - 1]) {
      j := n - 1;
    } else {
      j := GuessedOnVisit(c, s, ids, n - 1, p);
    }
  }

  lemma {:induction false} PassUnclashed(c: Ctx, s: Scan, ids: seq<nat>, n: nat, origin: Ref -> Option<Ref>)
    requires InRange(ids, |s.legs|) && n <= |ids| && ScanOk(c, s, origin) && !Clash(c, s, ids)
    ensures Unclashed(c, After(c, s, ids, n), GuessedSoFar(c, s, ids, n), origin)
  {
    if n == 0 {
      StartsUnclashed(c, s, origin);
    } else {
      PassUnclashed(c, s, ids, n - 1, origin);
      var t, guessed := After(c, s, ids, n - 1), GuessedSoFar(c, s, ids, n - 1);
      forall p | LinksOwn(c, t.legs[ids[n - 1]], p) ensures p !in guessed {
        assert OwnedAt(c, s, ids, n - 1, p);
        if p in guessed {
          var j := GuessedOnVisit(c, s, ids, n - 1, p);
        }
      }
      VisitUnclashed(c, t, ids[n - 1], guessed, origin);
      AfterNext(c, s, ids, n - 1);
    }
  }

  lemma VisitHolds(c: Ctx, s: Scan, i: nat, j: nat, p: Ref)
    requires i < |s.legs| && j < |s.legs| && LegOk(s.legs[i]) && Holds(s.legs[j], p)
    ensures Holds(VisitLeg(c, s, i).legs[j], p)
  {}

  lemma AfterOk(c: Ctx, s: Scan, ids: seq<nat>, k: nat)
    requires InRange(ids, |s.legs|) && LegsOk(s.legs) && k <= |ids|
    ensures LegsOk(After(c, s, ids, k).legs)
  {
    if s.legs != [] {
      PassEvolves(c, s, ids[..k], 0);
    }
  }

  lemma HeldNext(c: Ctx, s: Scan, ids: seq<nat>, k: nat, i: nat, p: Ref)
    requires InRange(ids, |s.legs|) && LegsOk(s.legs) && k < |ids| && i < |s.legs|
    requires Holds(After(c, s, ids, k).legs[i], p)
    ensures Holds(After(c, s, ids, k + 1).legs[i], p)
  {
    var t := After(c, s, ids, k);
    AfterOk(c, s, ids, k);
    VisitHolds(c, t, ids[k], i, p);
    AfterNext(c, s, ids, k);
  }

  /** A leg linked after `k` visits is linked after the rest. */
  lemma {:induction false} HeldOn(c: Ctx, s: Scan, ids: seq<nat>, k: nat, n: nat, i: nat, p: Ref)
    requires InRange(ids, |s.legs|) && LegsOk(s.legs) && k <= n <= |ids| && i < |s.legs|
    requires Holds(After(c, s, ids, k).legs[i], p)
    ensures Holds(After(c, s, ids, n).legs[i], p)
    decreases n - k
  {
    if k < n {
      HeldNext(c, s, ids, k, i, p);
      HeldOn(c, s, ids, k + 1, n, i, p);
    }
  }

  /** Visit `k` guesses `p`, or links its own fill `p`, so its leg holds `p` from then on. */
  lemma TakenHolds(c: Ctx, s: Scan, ids: seq<nat>, k: nat, n: nat, p: Ref)
    requires InRange(ids, |s.legs|) && LegsOk(s.legs) && k < n <= |ids|
    requires GuessedAt(c, s, ids, k, p) || OwnedAt(c, s, ids, k, p)
    ensures Holds(After(c, s, ids, n).legs[ids[k]], p)
  {
    AfterNext(c, s, ids, k);
    HeldOn(c, s, ids, k + 1, n, ids[k], p);
  }

  lemma ClashCollides(c: Ctx, s: Scan, ids: seq<nat>)
    requires InRange(ids, |s.legs|) && LegsOk(s.legs) && Clash(c, s, ids)
    ensures !OneLegPerPosition(After(c, s, ids, |ids|).legs)
  {
    var j, k, p :| 0 <= j < k < |ids| && GuessedAt(c, s, ids, j, p) && OwnedAt(c, s, ids, k, p);
    TakenHolds(c, s, ids, j, k, p);
    TakenHolds(c, s, ids, j, |ids|, p);
    TakenHolds(c, s, ids, k, |ids|, p);
  }

  /** Exactly when a pass ends with one position on two legs: when one of its visits guesses a position
      that a later one links by workingOrderId, which does not ask whether the position is taken. */
  lemma PassCollidesExactly(c: Ctx, s: Scan, ids: seq<nat>, origin: Ref -> Option<Ref>)
    requires InRange(ids, |s.legs|) && ScanOk(c, s, origin)
    ensures OneLegPerPosition(Visits(c, s, ids).legs) <==> !Clash(c, s, ids)
  {
    assert ids[..|ids|] == ids;
    if Clash(c, s, ids) {
      ClashCollides(c, s, ids);
    } else {
      PassUnclashed(c, s, ids, |ids|, origin);
    }
  }

  // ---- the guard that is missing -----------------------------------------------------------------

  /** A position that closed is not listed again. */
  ghost predicate NotRelisted(snap: Snapshot, legs: seq<Leg>) {
    forall k, i :: 0 <= k < |snap.positions| && 0 <= i < |legs| && legs[i].status.Closed?
      ==> legs[i].posRef != Some(snap.positions[k].ref)
  }

  /** Among listed positions, `linked` is the ones some open leg is on. */
  ghost predicate LinkedExactly(c: Ctx, s: Scan) {
    && LinkedCovers(s.linked, s.legs)
    && forall k :: 0 <= k < |c.snap.positions| && c.snap.positions[k].ref in s.linked
         ==> HeldOpen(s.legs, c.snap.positions[k].ref)
  }

  ghost predicate HeldOpen(legs: seq<Leg>, p: Ref) {
    exists i :: 0 <= i < |legs| && legs[i].status.Open? && legs[i].posRef == Some(p)
  }

  /** What the pass knows without asking where positions came from. */
  ghost predicate Plain(c: Ctx, s: Scan) {
    LegsOk(s.legs) && OneLegPerPosition(s.legs) && NotRelisted(c.snap, s.legs) && LinkedExactly(c, s)
  }

  /** The visit links leg `i` by its order to a position it knows to be linked already. */
  predicate Doubles(c: Ctx, s: Scan, i: nat)
    requires i < |s.legs|
  {
    && s.legs[i].status.Working? && !Resting(c, s.legs[i])
    && var own := FilledBy(c.snap.positions, s.legs[i].orderRef);
       own.Some? && own.value.ref in s.linked
  }

  lemma DoublingCollides(c: Ctx, s: Scan, i: nat)
    requires i < |s.legs| && Plain(c, s) && Doubles(c, s, i)
    ensures !OneLegPerPosition(VisitLeg(c, s, i).legs)
  {
    var p, legs := FilledBy(c.snap.positions, s.legs[i].orderRef).value, VisitLeg(c, s, i).legs;
    assert HeldOpen(s.legs, p.ref);
    var j :| 0 <= j < |s.legs| && s.legs[j].status.Open? && s.legs[j].posRef == Some(p.ref);
    assert legs == s.legs[i := Link(s.legs[i], p)];
    assert Holds(legs[i], p.ref) && Holds(legs[j], p.ref);
  }

  lemma LinkStaysPlain(c: Ctx, s: Scan, i: nat, p: Pos)
    requires i < |s.legs| && Plain(c, s) && s.legs[i].status.Working? && p in c.snap.positions && p.ref !in s.linked
    ensures Plain(c, s.(legs := s.legs[i := Link(s.legs[i], p)], linked := s.linked + {p.ref}))
  {
    var legs := s.legs[i := Link(s.legs[i], p)];
    forall q | HeldOpen(s.legs, q) || q == p.ref ensures HeldOpen(legs, q) {
      if q == p.ref {
        assert legs[i].status.Open?;
      } else {
        var j :| 0 <= j < |s.legs| && s.legs[j].status.Open? && s.legs[j].posRef == Some(q);
        assert legs[j] == s.legs[j];
      }
    }
    forall j | 0 <= j < |s.legs| ensures !Holds(s.legs[j], p.ref) {}
  }

  lemma FallStaysPlain(c: Ctx, s: Scan, i: nat, l: Leg)
    requires i < |s.legs| && Plain(c, s) && LegOk(l) && l.posRef == s.legs[i].posRef && Terminal(l.status)
    requires s.legs[i].status.Open? ==> Gone(c, s.legs[i])
    requires l.status.Closed? && l.posRef.Some? ==> s.legs[i].status.Open?
    ensures Plain(c, s.(legs := s.legs[i := l]))
  {
    var legs := s.legs[i := l];
    forall k | 0 <= k < |c.snap.positions| && HeldOpen(s.legs, c.snap.positions[k].ref)
      ensures HeldOpen(legs, c.snap.positions[k].ref)
    {
      var q := c.snap.positions[k].ref;
      var j :| 0 <= j < |s.legs| && s.legs[j].status.Open? && s.legs[j].posRef == Some(q);
      assert j != i && legs[j] == s.legs[j];
    }
  }

  lemma VisitStaysPlain(c: Ctx, s: Scan, i: nat)
    requires i < |s.legs| && Plain(c, s) && !Doubles(c, s, i)
    ensures Plain(c, VisitLeg(c, s, i))
  {
    var leg, t := s.legs[i], VisitLeg(c, s, i);
    if leg.status.Working? && !Resting(c, leg) && LinkFor(c, s.linked, leg).Some? {
      LinkStaysPlain(c, s, i, LinkFor(c, s.linked, leg).value);
    } else if t.legs != s.legs {
      FallStaysPlain(c, s, i, t.legs[i]);
    }
  }

  ghost predicate NoneDoubles(c: Ctx, s: Scan, ids: seq<nat>, n: nat)
    requires InRange(ids, |s.legs|) && n <= |ids|
  {
    forall k :: 0 <= k < n ==> !Doubles(c, After(c, s, ids, k), ids[k])
  }

  lemma DoublesNext(c: Ctx, s: Scan, ids: seq<nat>, n: nat)
    requires InRange(ids, |s.legs|) && n < |ids| && Plain(c, After(c, s, ids, n))
    ensures if Doubles(c, After(c, s, ids, n), ids[n]) then !OneLegPerPosition(After(c, s, ids, n + 1).legs)
            else Plain(c, After(c, s, ids, n + 1))
  {
    var t, i := After(c, s, ids, n), ids[n];
    if Doubles(c, t, i) {
      DoublingCollides(c, t, i);
    } else {
      VisitStaysPlain(c, t, i);
    }
    AfterNext(c, s, ids, n);
  }

  lemma NoneDoublesNext(c: Ctx, s: Scan, ids: seq<nat>, n: nat)
    requires InRange(ids, |s.legs|) && n < |ids|
    ensures NoneDoubles(c, s, ids, n + 1) <==> NoneDoubles(c, s, ids, n) && !Doubles(c, After(c, s, ids, n), ids[n])
  {}

  lemma {:induction false} DoublesExactly(c: Ctx, s: Scan, ids: seq<nat>, n: nat)
    requires InRange(ids, |s.legs|) && n <= |ids| && Plain(c, s)
    ensures NoneDoubles(c, s, ids, n) ==> Plain(c, After(c, s, ids, n))
    ensures !NoneDoubles(c, s, ids, n) ==> !OneLegPerPosition(After(c, s, ids, n).legs)
  {
    if n == 0 {
      assert ids[..0] == [] && NoneDoubles(c, s, ids, 0);
    } else {
      DoublesExactly(c, s, ids, n - 1);
      NoneDoublesNext(c, s, ids, n - 1);
      if NoneDoubles(c, s, ids, n - 1) {
        DoublesNext(c, s, ids, n - 1);
      } else {
        StaysCollided(c, s, ids, n - 1, n);
      }
    }
  }

  lemma StaysCollided(c: Ctx, s: Scan, ids: seq<nat>, k: nat, n: nat)
    requires InRange(ids, |s.legs|) && LegsOk(s.legs) && k <= n <= |ids|
    requires !OneLegPerPosition(After(c, s, ids, k).legs)
    ensures !OneLegPerPosition(After(c, s, ids, n).legs)
  {
    var legs := After(c, s, ids, k).legs;
    var i, j, p :| 0 <= i < |legs| && 0 <= j < |legs| && Holds(legs[i], p) && Holds(legs[j], p) && i != j;
    HeldOn(c, s, ids, k, n, i, p);
    HeldOn(c, s, ids, k, n, j, p);
  }

  /** What goes wrong: when leg `i` guesses the fill of leg `j`'s order, the exact link made for `j` next
      does not ask whether the position is already held, and one position is on two legs. */
  lemma GuessThenExact(c: Ctx, s: Scan, i: nat, j: nat, p: Pos)
    requires i < |s.legs| && j < |s.legs| && i != j && s.legs[i].status.Working? && s.legs[j].status.Working?
    requires !Resting(c, s.legs[i]) && !Resting(c, s.legs[j])
    requires FilledBy(c.snap.positions, s.legs[i].orderRef).None?
    requires Guess(c.side, c.snap.positions, s.linked) == Some(p)
    requires FilledBy(c.snap.positions, s.legs[j].orderRef) == Some(p)
    ensures !OneLegPerPosition(Visits(c, s, [i, j]).legs)
  {
    assert [i, j][..1] == [i] && [i][..0] == [];
    assert Visits(c, s, []) == s;
    var first, legs := Visits(c, s, [i]), Visits(c, s, [i, j]).legs;
    assert first.legs == s.legs[i := Link(s.legs[i], p)];
    assert legs == first.legs[j := Link(s.legs[j], p)];
    assert Holds(legs[i], p.ref) && Holds(legs[j], p.ref);
  }

  /** An adapter that keeps to the declared Direction type never lets the fallback match: its values
      print as Direction.LONG and Direction.SHORT, which end in neither BUY nor SELL. */
  lemma {:induction false} DeclaredDirectionsNeverGuessed(side: Side, positions: seq<Pos>, linked: set<Ref>)
    requires forall k :: 0 <= k < |positions| ==> positions[k].direction in ["Direction.LONG", "Direction.SHORT"]
    ensures Guess(side, positions, linked).None?
  {}

  /** So with such an adapter the proviso holds of every pass. */
  lemma DeclaredDirectionsSafe(c: Ctx, s: Scan, ids: seq<nat>, origin: Ref -> Option<Ref>)
    requires InRange(ids, |s.legs|)
    requires forall k :: 0 <= k < |c.snap.positions|
               ==> c.snap.positions[k].direction in ["Direction.LONG", "Direction.SHORT"]
    ensures GuessesSafe(c, s, ids, origin)
  {
    forall k | 0 <= k < |ids| ensures GuessSafe(c, Visits(c, s, ids[..k]), ids[k], origin) {
      DeclaredDirectionsNeverGuessed(c.side, c.snap.positions, Visits(c, s, ids[..k]).linked);
    }
  }
}
