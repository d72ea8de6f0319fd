/**
 The monitor as it runs: a session over the durable tables, broker calls whose answers are arbitrary,
 and commits that may fail. Every method extends a run of the order book's transition system, so all
 that holds over runs holds of it.
 */
module MonitorWorker {
  import opened Wrappers
  import opened Prices
  import opened StopRules
  import opened Rows
  import opened Reconcile
  import opened Links
  import opened Book
  import opened Invariants
  import opened Steps
  import opened Ladder
  import opened TickRules
  import opened RollUps
  import opened StopRuns

  class Monitor {
    ghost const cfg: RiskCfg
    var db: Db
    var ses: Db
    ghost var drive: Drive
    ghost var draft: Option<Trade>
    ghost var attempts: multiset<nat>
    ghost var acked: set<nat>
    ghost var ws: seq<World>
    ghost var es: seq<Event>
    ghost var cuts: seq<nat>
    ghost var acts: seq<Act>

    ghost function Now(): World
      reads this
    {
      World(db, ses, drive, draft, attempts, acked)
    }

    ghost predicate Valid()
      reads this
    {
      Run(cfg, ws, es) && ws[|es|] == Now()
    }

    /** The run so far is kept and only extended. */
    twostate predicate Extends()
      reads this
    {
      Valid() && old(ws) <= ws && old(es) <= es
    }

    /** The run so far is cut into acts on the trades' stops. */
    ghost predicate Charted()
      reads this
    {
      Charts(ws, cuts, acts)
    }

    /** If it was cut so, it still is. */
    twostate predicate StaysCharted()
      reads this
    {
      old(Charted()) ==> Charted()
    }

    /** Some commit since was reported failed, or the process died. */
    twostate predicate Troubled()
      reads this
    {
      exists k :: |old(es)| <= k < |es| && Trouble(es[k])
    }

    constructor (cfg: RiskCfg)
      ensures Valid() && Charted() && Now() == EMPTY
    {
      this.cfg := cfg;
      db, ses, drive, draft := EMPTY_DB, EMPTY_DB, Idle, None;
      attempts, acked := multiset{}, {};
      ws, es := [EMPTY], [];
      cuts, acts := [0], [];
    }

    /** A new process over the tables that any run of executor and monitor left, wherever it stopped. */
    constructor Resume(cfg: RiskCfg, db: Db, ghost us: seq<World>, ghost fs: seq<Event>)
      requires Run(cfg, us, fs) && us[|fs|].db == db
      ensures Valid() && Charted() && this.cfg == cfg && this.db == db && ses == db && drive.Idle?
      ensures us < ws && es == fs + [Crash] && draft == us[|fs|].draft
      ensures attempts == us[|fs|].attempts && acked == us[|fs|].acked
    {
      ghost var w := us[|fs|];
      RunGrows(cfg, us, fs, w.(ses := db, drive := Idle), Crash);
      this.cfg := cfg;
      this.db, ses, drive, draft := db, db, Idle, w.draft;
      attempts, acked := w.attempts, w.acked;
      ws, es := us + [w.(ses := db, drive := Idle)], fs + [Crash];
      cuts, acts := [|us|], [];
    }

    ghost method Record(e: Event)
      requires |ws| == |es| + 1 && Run(cfg, ws, es) && Step(cfg, ws[|es|], Now(), e)
      modifies this`ws, this`es
      ensures Extends() && es == old(es) + [e] && (Trouble(e) ==> Troubled())
    {
      ghost var was, before := ws, es;
      ws, es := ws + [Now()], es + [e];
      assert forall k :: 0 <= k < |before| ==>
          (StepAt(cfg, was, before, k) && es[k] == before[k] && ws[k + 1] == was[k + 1]);
      assert es[|before|] == e;
    }

    /** Close an act that began when the run was `was`. */
    ghost method Mark(was: seq<World>, act: Act, w: World)
      requires Valid() && was != [] && was <= ws && w == was[|was| - 1] && Acts(act, w, Now())
      modifies this`cuts, this`acts
      ensures Charts(was, old(cuts), old(acts)) ==> Charted()
    {
      if Charts(was, cuts, acts) {
        ChartGrows(was, cuts, acts, ws, act, w, Now());
        cuts, acts := cuts + [|ws| - 1], acts + [act];
      }
    }

    /** Close a tick of trade `t` that began in world `w`, at the end of `was`; or one that was broken off. */
    ghost method MarkReview(was: seq<World>, w: World, t: nat, v: View, price: real, ids: seq<nat>, staged: bool)
      requires Valid() && was != [] && was <= ws && w == was[|was| - 1] && w.db == db
      requires t < |w.ses.trades| && LegsOfTrade(w.ses, t, ids) && ses == Reviewed(w.ses, t, v, price, ids, staged)
      modifies this`cuts, this`acts
      ensures Charts(was, old(cuts), old(acts)) ==> Charted()
    {
      ReviewActs(w, Now(), t, v, price, ids, staged);
      Mark(was, Review(t, v, price, ids, staged), w);
    }

    ghost method MarkBreak(was: seq<World>, w: World, t: nat, v: View, price: real, ids: seq<nat>, staged: bool)
      requires Valid() && was != [] && was <= ws && w == was[|was| - 1] && w.db == db
      requires t < |w.ses.trades| && LegsOfTrade(w.ses, t, ids) && BrokenOff(w.ses, ses, t, v, price, ids, staged)
      modifies this`cuts, this`acts
      ensures Charts(was, old(cuts), old(acts)) ==> Charted()
    {
      BreakActs(w, Now(), t, v, price, ids, staged);
      Mark(was, Break(t, v, price, ids, staged), w);
    }

    /** Record an event that is an act of its own. */
    ghost method Note(e: Event)
      requires |ws| == |es| + 1 && Run(cfg, ws, es) && Step(cfg, ws[|es|], Now(), e)
      requires !e.Pass? && (e.Edit? ==> Unmoved(ws[|es|].ses, ses))
      modifies this`ws, this`es, this`cuts, this`acts
      ensures Extends() && StaysCharted() && es == old(es) + [e] && (Trouble(e) ==> Troubled())
    {
      ghost var was := ws;
      RunKeeps(cfg, ws, es, |es|);
      EventActs(cfg, ws[|es|], Now(), e);
      Record(e);
      Mark(was, ActOf(e), was[|was| - 1]);
    }

    lemma Holds()
      requires Valid()
      ensures Inv(cfg, Now())
    {
      RunKeeps(cfg, ws, es, |es|);
    }

    // ---- single edits ------------------------------------------------------------------------------

    /** Change one leg of trade `t` in the session. */
    method EditLeg(t: nat, i: nat, leg: Leg)
      requires Valid() && drive.Idle? && Managed(ses, t) && i < |ses.legs| && ses.legs[i].trade == t
      requires LegEdit(ses.legs[i], leg) && LegEvolves(ses.trades[t].side, ses.legs[i], leg)
      modifies this`ses, this`ws, this`es
      ensures Extends() && ses == SetLeg(old(ses), i, leg)
    {
      ghost var was := ses;
      ses := SetLeg(ses, i, leg);
      assert EditOk(was, ses, t);
      Record(Edit(t, ses));
    }

    /** Give up one leg of trade `t` in the session. */
    method DropLeg(t: nat, i: nat, status: LegStatus)
      requires Valid() && drive.Idle? && Managed(ses, t) && i < |ses.legs| && ses.legs[i].trade == t
      requires ses.legs[i].status.Staged? || ses.legs[i].status.Working?
      requires status.Cancelled? || status.Expired?
      modifies this`ses, this`ws, this`es, this`cuts, this`acts
      ensures Extends() && StaysCharted() && ses == SetLeg(old(ses), i, old(ses).legs[i].(status := status))
    {
      LegsAreOk();
      ghost var was := ses;
      ses := SetLeg(ses, i, ses.legs[i].(status := status));
      assert EditOk(was, ses, t);
      LegUnmoved(was, i, ses.legs[i]);
      Note(Edit(t, ses));
    }

    /** Resolve one tranche of trade `t` in the session. */
    method EditTranche(t: nat, r: nat, state: TrancheState, now: int)
      requires Valid() && drive.Idle? && Managed(ses, t) && r < |ses.tranches| && ses.tranches[r].trade == t
      requires Resolved(state)
      modifies this`ses, this`ws, this`es, this`cuts, this`acts
      ensures Extends() && StaysCharted() && ses == SetTranche(old(ses), r, state, now)
    {
      ghost var was := ses;
      ses := SetTranche(ses, r, state, now);
      assert EditOk(was, ses, t);
      Note(Edit(t, ses));
    }

    // ---- committing --------------------------------------------------------------------------------

    /** Make the session durable, or roll it back to what is. */
    method CommitNow() returns (end: Commit)
      requires Valid() && !drive.Ready?
      modifies this`db, this`ses, this`drive, this`ws, this`es, this`cuts, this`acts
      ensures Extends() && StaysCharted() && es == old(es) + [CommitAll(end)]
      ensures Now() == Committed(old(Now()), end)
      ensures Carries(old(ses), ses) && (!end.Applied? ==> Troubled())
    {
      end := *;
      Holds();
      RollbackCarries(db, ses);
      ghost var s := Now();
      if end.Failed? {
        ses := db;
      } else {
        db := ses;
      }
      drive := Committed(s, end).drive;
      Note(CommitAll(end));
    }

    // ---- deploying one tranche ---------------------------------------------------------------------

    /** Log the intent durably. Nothing has been placed; unless the commit went through nothing will be. */
    method LogIntent(r: nat, now: int) returns (intent: Commit)
      requires Valid() && drive.Idle? && r < |ses.tranches| && ses.tranches[r].state.Waiting?
      modifies this`db, this`ses, this`drive, this`ws, this`es, this`cuts, this`acts
      ensures Extends() && StaysCharted()
      ensures ses == db == if intent.Failed? then old(db) else SetTranche(old(ses), r, Deploying, now)
      ensures drive == if intent.Applied? then Ready(r, StagedOf(old(ses), old(ses).tranches[r].legs)) else Idle
      ensures !intent.Applied? ==> Troubled()
      ensures CarriesRest(old(ses), ses, r)
    {
      Holds();
      RollbackCarries(db, ses);
      ghost var todo := StagedOf(ses, ses.tranches[r].legs);
      intent := *;
      ses := SetTranche(ses, r, Deploying, now);
      if intent.Failed? {
        ses := db;
      } else {
        db := ses;
      }
      if intent.Applied? {
        drive := Ready(r, todo);
      }
      Note(Intent(r, now, intent));
    }

    /** The call itself: what the broker answers is written on the leg. */
    method SendLeg(i: nat, reply: Reply, at: int)
      requires Valid() && drive.Ready? && drive.todo != [] && drive.todo[0] == i && i < |ses.legs|
      modifies this`ses, this`drive, this`attempts, this`acked, this`ws, this`es, this`cuts, this`acts
      ensures Extends() && StaysCharted() && attempts == old(attempts) + multiset{i}
      ensures ses == SetLeg(old(ses), i, PlacedLeg(old(ses).legs[i], reply, at))
      ensures drive == Sent(old(drive).r, i, old(drive).todo[1..])
    {
      ses := SetLeg(ses, i, PlacedLeg(ses.legs[i], reply, at));
      drive := Sent(drive.r, i, drive.todo[1..]);
      attempts := attempts + multiset{i};
      acked := if reply.Accepted? then acked + {i} else acked;
      Note(Place(reply, at));
    }

    /** One place_order call, answered with `reply`; recorded and committed at once. */
    method PlaceLeg(i: nat, reply: Reply) returns (end: Commit)
      requires Valid() && drive.Ready? && drive.todo != [] && drive.todo[0] == i && i < |ses.legs| && db == ses
      modifies this`db, this`ses, this`drive, this`attempts, this`acked, this`ws, this`es, this`cuts, this`acts
      ensures Extends() && StaysCharted() && db == ses && attempts == old(attempts) + multiset{i}
      ensures drive == Ready(old(drive).r, if end.Applied? then old(drive).todo[1..] else [])
      ensures Carries(old(ses), ses) && (!end.Applied? ==> Troubled())
      ensures if end.Failed? then ses == old(ses)
              else exists at: int :: ses == SetLeg(old(ses), i, PlacedLeg(old(ses).legs[i], reply, at))
      ensures !end.Failed? ==> i < |ses.legs| && AnsweredAs(old(ses).legs[i], ses.legs[i], reply)
    {
      var at: int := *;
      PlacedMeans(ses.legs[i], PlacedLeg(ses.legs[i], reply, at), reply);
      SendLeg(i, reply, at);
      end := CommitNow();
    }

    /** The rung's outcome, durable with the next commit. */
    method SettleTranche(r: nat, placed: nat, armed: bool) returns (end: Commit)
      requires Valid() && drive.Ready? && drive.todo == [] && drive.r == r && r < |ses.tranches| && db == ses
      modifies this`db, this`ses, this`drive, this`ws, this`es, this`cuts, this`acts
      ensures Extends() && StaysCharted() && drive.Idle? && db == ses && CarriesRest(old(ses), ses, r)
      ensures !end.Applied? ==> Troubled()
      ensures r < |ses.tranches|
      ensures ses == if end.Failed? then old(ses) else SetTranche(old(ses), r,
                if placed == 0 then Refused else if armed then Armed else Deployed, ses.tranches[r].since)
    {
      var at: int := *;
      var state := if placed == 0 then Refused else if armed then Armed else Deployed;
      ses := SetTranche(ses, r, state, at);
      drive := Idle;
      Note(Finish(state, at));
      ghost var mid := ses;
      end := CommitNow();
      SetThenCarries(old(ses), mid, ses, r);
    }

    /** The process dies; a new one starts from the durable tables. */
    method Die()
      requires Valid()
      modifies this`ses, this`drive, this`ws, this`es, this`cuts, this`acts
      ensures Extends() && StaysCharted() && drive.Idle? && ses == db && Troubled()
    {
      drive, ses := Idle, db;
      Note(Crash);
    }

    lemma TodoReady(r: nat)
      requires Valid() && r < |ses.tranches|
      ensures ReadyToPlace(ses, StagedOf(ses, ses.tranches[r].legs))
    {
      Holds();
      StagedOfDistinct(ses, ses.tranches[r].legs);
    }

    /** Place leg `todo[j]`, counting it. `a` is the session and `sent` the calls made before the rung. */
    method PlaceNext(m: Broker, ghost a: Db, ghost sent: multiset<nat>, r: nat, todo: seq<nat>, j: nat, placed: nat,
                     armed: bool)
      returns (placed': nat, armed': bool, end: Commit)
      requires Valid() && j < |todo| && drive == Ready(r, todo[j..]) && db == ses
      requires ReadyToPlace(a, todo) && PlacedSoFar(m, a, ses, r, todo, j, j, placed, armed)
      requires Tried(sent, attempts, todo, j)
      modifies this`db, this`ses, this`drive, this`attempts, this`acked, this`ws, this`es, this`cuts, this`acts
      ensures Extends() && StaysCharted() && drive == Ready(r, if end.Applied? then todo[j + 1..] else []) && db == ses
      ensures Carries(old(ses), ses) && (!end.Applied? ==> Troubled())
      ensures Tried(sent, attempts, todo, j + 1)
      ensures PlacedSoFar(m, a, ses, r, todo, j + 1, if end.Failed? then j else j + 1, placed', armed')
      ensures ses.tranches == old(ses).tranches
    {
      var i := todo[j];
      ghost var before := ses;
      var accepted, stop := m.replies(i).Accepted?, ses.legs[i].kind.Stop?;
      assert todo[j..][1..] == todo[j + 1..] && i !in todo[..j];
      end := PlaceLeg(i, m.replies(i));
      placed', armed' := if accepted then placed + 1 else placed, armed || (accepted && stop);
      TakesNext(m, a.legs, todo, j, false);
      TakesNext(m, a.legs, todo, j, true);
      ghost var at: int := 0;
      if !end.Failed? {
        at :| ses == SetLeg(before, i, PlacedLeg(before.legs[i], m.replies(i), at));
      }
      PlacedOneMore(m, a, before, ses, r, todo, j, !end.Failed?, at);
      TriedNext(sent, old(attempts), todo, j);
    }

    /** Part way through a rung, with the session `a` and the calls `sent` before it. The loop goes on while
        the process is alive and every commit was clean. */
    ghost predicate Placing(m: Broker, a: Db, sent: multiset<nat>, r: nat, todo: seq<nat>, tried: nat, kept: nat,
                            placed: nat, armed: bool)
      reads this
    {
      && db == ses && Carries(a, ses) && ses.tranches == a.tranches && Tried(sent, attempts, todo, tried)
      && PlacedSoFar(m, a, ses, r, todo, tried, kept, placed, armed)
    }

    /** Where the driver is in the loop. */
    ghost predicate AtTurn(r: nat, todo: seq<nat>, j: nat, kept: nat, alive: bool, clean: bool)
      reads this
    {
      && j <= |todo| && (clean ==> kept == j)
      && drive == if !alive then Idle else Ready(r, if clean then todo[j..] else [])
    }

    lemma PlacingStarts(m: Broker, r: nat, todo: seq<nat>)
      requires Valid() && db == ses && drive == Ready(r, todo)
      ensures Placing(m, ses, attempts, r, todo, 0, 0, 0, false) && AtTurn(r, todo, 0, 0, true, true)
    {
      assert todo[..0] == [] && todo[0..] == todo;
    }

    /** One turn of the placing loop. */
    method PlaceTurn(m: Broker, ghost a: Db, ghost sent: multiset<nat>, r: nat, todo: seq<nat>, j: nat,
                     ghost kept: nat, placed: nat, armed: bool)
      returns (j': nat, ghost kept': nat, placed': nat, armed': bool, alive: bool, clean: bool)
      requires Valid() && j < |todo| && AtTurn(r, todo, j, kept, true, true) && ReadyToPlace(a, todo)
      requires Placing(m, a, sent, r, todo, j, kept, placed, armed)
      modifies this`db, this`ses, this`drive, this`attempts, this`acked, this`ws, this`es, this`cuts, this`acts
      ensures Extends() && StaysCharted() && AtTurn(r, todo, j', kept', alive, clean)
      ensures Placing(m, a, sent, r, todo, j', kept', placed', armed')
      ensures (if alive then j' == j + 1 else j' == j) && (!alive || !clean ==> Troubled())
    {
      j', kept', placed', armed', alive, clean := j, kept, placed, armed, false, true;
      var dies: bool := *;
      if dies {
        Die();
      } else {
        var end;
        placed', armed', end := PlaceNext(m, a, sent, r, todo, j, placed, armed);
        j', kept', alive, clean := j + 1, if end.Failed? then j else j + 1, true, end.Applied?;
      }
    }

    /** Place each leg in turn with a commit after it; a failed commit stops the placing, and the
        process may die before any call. The first `tried` legs were sent and no other; the first `kept`
        of them are recorded. The source's re-check for a leg that already has a reference never fires:
        a staged leg has none. */
    method PlaceAll(m: Broker, r: nat, todo: seq<nat>)
      returns (placed: nat, armed: bool, alive: bool, clean: bool, ghost tried: nat, ghost kept: nat)
      requires Valid() && drive == Ready(r, todo) && db == ses && ReadyToPlace(ses, todo)
      modifies this`db, this`ses, this`drive, this`attempts, this`acked, this`ws, this`es, this`cuts, this`acts
      ensures Extends() && StaysCharted() && drive == (if alive then Ready(r, []) else Idle)
      ensures !alive || !clean ==> Troubled()
      ensures Placing(m, old(ses), old(attempts), r, todo, tried, kept, placed, armed)
      ensures clean ==> kept == tried && (alive ==> tried == |todo|)
    {
      ghost var a, sent := ses, attempts;
      var j := 0;
      placed, armed, alive, clean, kept := 0, false, true, true, 0;
      PlacingStarts(m, r, todo);
      while j < |todo| && clean && alive
        invariant Extends() && StaysCharted() && AtTurn(r, todo, j, kept, alive, clean)
        invariant !alive || !clean ==> Troubled()
        invariant Placing(m, a, sent, r, todo, j, kept, placed, armed)
        decreases |todo| - j, alive
      {
        j, kept, placed, armed, alive, clean := PlaceTurn(m, a, sent, r, todo, j, kept, placed, armed);
      }
      tried := j;
    }

    /** Place the rung's legs once its intent is durable; `a` is the session before the intent. The process may
        also die after the last of them. */
    method PlaceLogged(m: Broker, ghost a: Db, r: nat, todo: seq<nat>, ghost now: int)
      returns (placed: nat, armed: bool, alive: bool, clean: bool, ghost tried: nat, ghost kept: nat)
      requires Valid() && drive == Ready(r, todo) && db == ses && ReadyToPlace(ses, todo) && r < |a.tranches|
      requires ses == SetTranche(a, r, Deploying, now) && todo == StagedOf(a, a.tranches[r].legs)
      modifies this`db, this`ses, this`drive, this`attempts, this`acked, this`ws, this`es, this`cuts, this`acts
      ensures Extends() && StaysCharted() && drive == (if alive then Ready(r, []) else Idle) && db == ses
      ensures Carries(old(ses), ses)
      ensures !alive || !clean ==> Troubled()
      ensures Tried(old(attempts), attempts, todo, tried)
      ensures RungOutcome(m, a, db, r, tried, kept, false) && Counted(m, a.legs, todo, tried, placed, armed)
      ensures alive && clean ==> kept == tried == |todo|
    {
      ghost var logs := ses;
      placed, armed, alive, clean, tried, kept := PlaceAll(m, r, todo);
      LoggedOutcome(m, a, logs, ses, r, now, tried, kept, placed, armed);
      var dies: bool := *;
      if alive && dies {
        Die();
        alive := false;
      }
    }

    /** Settle the rung, once its legs were sent. */
    method SettleRung(m: Broker, ghost a: Db, r: nat, placed: nat, armed: bool, ghost tried: nat, ghost kept: nat)
      returns (end: Commit)
      requires Valid() && drive == Ready(r, []) && db == ses && r < |a.tranches|
      requires RungOutcome(m, a, db, r, tried, kept, false)
      requires Counted(m, a.legs, StagedOf(a, a.tranches[r].legs), tried, placed, armed)
      modifies this`db, this`ses, this`drive, this`ws, this`es, this`cuts, this`acts
      ensures Extends() && StaysCharted() && drive.Idle? && db == ses && CarriesRest(old(ses), ses, r)
      ensures !end.Applied? ==> Troubled()
      ensures RungOutcome(m, a, db, r, tried, kept, !end.Failed?)
    {
      ghost var b := ses;
      end := SettleTranche(r, placed, armed);
      if !end.Failed? {
        SettledOutcome(m, a, b, ses, r, tried, kept, placed, armed, ses.tranches[r].since);
      }
    }

    /** Place the rung's legs and settle it. */
    method PlaceRung(m: Broker, ghost a: Db, r: nat, todo: seq<nat>, ghost now: int)
      returns (alive: bool, clean: bool, settle: Option<Commit>, ghost tried: nat, ghost kept: nat)
      requires Valid() && drive == Ready(r, todo) && db == ses && ReadyToPlace(ses, todo) && r < |a.tranches|
      requires ses == SetTranche(a, r, Deploying, now) && todo == StagedOf(a, a.tranches[r].legs)
      modifies this`db, this`ses, this`drive, this`attempts, this`acked, this`ws, this`es, this`cuts, this`acts
      ensures Extends() && StaysCharted() && drive.Idle? && db == ses && CarriesRest(old(ses), ses, r)
      ensures !alive || !clean ==> Troubled()
      ensures Tried(old(attempts), attempts, todo, tried)
      ensures RungOutcome(m, a, db, r, tried, kept, alive && settle.Some? && !settle.value.Failed?)
      ensures clean ==> alive && settle.Some? && !settle.value.Failed? && tried == kept == |todo|
    {
      ghost var logs := ses;
      var placed, armed;
      placed, armed, alive, clean, tried, kept := PlaceLogged(m, a, r, todo, now);
      ghost var b := ses;
      settle := None;
      CarriesRestOf(logs, b, r);
      if !alive {
        clean := false;
        return;
      }
      var end := SettleRung(m, a, r, placed, armed, tried, kept);
      settle, clean := Some(end), clean && end.Applied?;
      CarriesThenRest(logs, b, ses, r);
    }

    /** Place a rung: intent, legs, outcome. `intent` and `settle` say how its first and last commits went,
        `clean` that every commit did go through. Nothing is sent unless the intent is durable. Once it is,
        the rung ends durably deploying exactly when the process died or its outcome was not committed;
        otherwise it says what the broker took of the orders sent, whether they are recorded or not. */
    method DeployRung(m: Broker, r: nat, now: int)
      returns (alive: bool, clean: bool, intent: Commit, settle: Option<Commit>, ghost tried: nat, ghost kept: nat)
      requires Valid() && drive.Idle? && r < |ses.tranches| && ses.tranches[r].state.Waiting?
      modifies this`db, this`ses, this`drive, this`attempts, this`acked, this`ws, this`es, this`cuts, this`acts
      ensures Extends() && StaysCharted() && drive.Idle? && db == ses && CarriesRest(old(ses), ses, r)
      ensures !alive || !clean ==> Troubled()
      ensures Tried(old(attempts), attempts, StagedOf(old(ses), old(ses).tranches[r].legs), tried)
      ensures (!intent.Applied? ==> tried == 0) && (intent.Failed? ==> db == old(db))
      ensures !intent.Failed? ==>
                RungOutcome(m, old(ses), db, r, tried, kept, alive && settle.Some? && !settle.value.Failed?)
      ensures !intent.Failed? ==> (db.tranches[r].state.Deploying? <==> !alive || settle.None? || settle.value.Failed?)
      ensures clean ==> alive && DeployedRung(m, old(ses), ses, r)
                        && tried == |StagedOf(old(ses), old(ses).tranches[r].legs)|
    {
      ghost var a := ses;
      TodoReady(r);
      var todo := StagedOf(ses, ses.tranches[r].legs);
      alive, clean, settle, tried, kept := true, false, None, 0, 0;
      intent := LogIntent(r, now);
      ghost var logs := ses;
      if intent.Applied? {
        alive, clean, settle, tried, kept := PlaceRung(m, a, r, todo, now);
        CarriesThenRest(a, logs, ses, r);
        if clean {
          OutcomeDeployed(m, a, ses, r, tried);
        }
      }
    }

    // ---- driving the ladder ------------------------------------------------------------------------

    lemma OwnLegs(t: nat, r: nat)
      requires Valid() && r < |ses.tranches| && ses.tranches[r].trade == t
      ensures LegsOfTrade(ses, t, ses.tranches[r].legs)
    {
      Holds();
      assert OwnsLegs(ses, ses.tranches[r]);
    }

    lemma LegsAreOk()
      requires Valid()
      ensures LegsOk(ses.legs)
    {
      Holds();
    }

    /** Give up the legs among `ids` that were never placed. */
    method GiveUpStaged(t: nat, ids: seq<nat>, status: LegStatus)
      requires Valid() && drive.Idle? && Managed(ses, t) && LegsOfTrade(ses, t, ids)
      requires status.Cancelled? || status.Expired?
      modifies this`ses, this`ws, this`es, this`cuts, this`acts
      ensures Extends() && StaysCharted()
      ensures ses == old(ses).(legs := ses.legs) && GaveUp(old(ses).legs, ses.legs, ids, status)
    {
      for k := 0 to |ids|
        invariant Extends() && StaysCharted()
        invariant ses == old(ses).(legs := ses.legs) && GaveUp(old(ses).legs, ses.legs, ids[..k], status)
      {
        var leg := ses.legs[ids[k]];
        GaveUpOneMore(old(ses).legs, ses.legs, ids, k, status);
        if leg.status.Staged? {
          DropLeg(t, ids[k], status);
        }
      }
      assert ids[..|ids|] == ids;
    }

    /** One waiting row: keep it, time it out, or deploy it. */
    method DriveRow(t: nat, r: nat, f: Facts, m: Broker) returns (alive: bool, clean: bool)
      requires Valid() && drive.Idle? && Managed(ses, t) && WaitsIn(ses, r, t)
      modifies this`db, this`ses, this`drive, this`attempts, this`acked, this`ws, this`es, this`cuts, this`acts
      ensures Extends() && StaysCharted() && drive.Idle? && CarriesRest(old(ses), ses, r) && (!alive ==> ses == db)
      ensures !clean ==> Troubled()
      ensures clean ==> alive && RowOutcome(f, m, old(ses), ses, r) && OnlyRow(old(ses), ses, r)
    {
      ghost var a := ses;
      match Judge(f, ses.tranches[r]) {
        case Keep =>
          return true, true;
        case Expire =>
          if ses.tranches[r].role.Rung? {
            OwnLegs(t, r);
            GiveUpStaged(t, ses.tranches[r].legs, Expired);
          }
          EditTranche(t, r, TimedOut, f.now);
          return true, true;
        case Deploy =>
          var intent, settle;
          ghost var tried, kept;
          alive, clean, intent, settle, tried, kept := DeployRung(m, r, f.now);
          if clean {
            DeployedOutcome(f, m, a, ses, r);
          }
      }
    }

    /** Withdraw row `rows[k]`. `a` is the session before the withdrawal. */
    method WithdrawRow(ghost a: Db, t: nat, rows: seq<nat>, r: nat, k: nat, now: int)
      requires Valid() && drive.Idle? && Managed(ses, t) && k < |rows| && Withdrawing(a, ses, rows, r, k, now)
      requires rows[k] != r && rows[k] !in rows[..k] && rows[k] < |ses.tranches| && ses.tranches[rows[k]].trade == t
      modifies this`ses, this`ws, this`es, this`cuts, this`acts
      ensures Extends() && StaysCharted() && ses.trades == old(ses).trades
      ensures Withdrawing(a, ses, rows, r, k + 1, now)
    {
      var q := rows[k];
      ghost var b := ses;
      OwnLegs(t, q);
      GiveUpStaged(t, ses.tranches[q].legs, Cancelled);
      ghost var legs := ses.legs;
      EditTranche(t, q, Withdrawn, now);
      WithdrawOneMore(a, b, legs, rows, r, k, now);
    }

    /** Withdraw every waiting row but `r`. */
    method WithdrawOthers(t: nat, rows: seq<nat>, r: nat, now: int)
      requires Valid() && drive.Idle? && Managed(ses, t) && IsPending(ses, t, rows)
      modifies this`ses, this`ws, this`es, this`cuts, this`acts
      ensures Extends() && StaysCharted() && Withdrawing(old(ses), ses, rows, r, |rows|, now)
    {
      ghost var a := ses;
      for k := 0 to |rows|
        invariant Extends() && StaysCharted() && Withdrawing(a, ses, rows, r, k, now)
      {
        if rows[k] == r {
          WithdrawSkip(a, ses, rows, r, k, now);
        } else {
          WithdrawRow(a, t, rows, r, k, now);
        }
      }
    }

    /** Cancel the trade's resting orders that the broker lets go. */
    method PullWorking(t: nat, keys: set<Ref>)
      requires Valid() && drive.Idle? && Managed(ses, t)
      modifies this`ses, this`ws, this`es, this`cuts, this`acts
      ensures Extends() && StaysCharted()
      ensures ses == old(ses).(legs := PullOrders(old(ses).legs, t, keys, |old(ses).legs|))
    {
      LegsAreOk();
      ghost var was := ses.legs;
      for i := 0 to |ses.legs|
        invariant Extends() && StaysCharted() && ses == old(ses).(legs := PullOrders(was, t, keys, i))
      {
        var leg := ses.legs[i];
        if leg.trade == t && leg.status.Working? && leg.orderRef.Some? {
          if leg.orderRef.value in keys {
            DropLeg(t, i, Cancelled);
          }
        }
        assert ses.legs == PullOrders(was, t, keys, i + 1);
      }
    }

    /** A cancel row is hit: nothing else of the trade may deploy, on this tick or later. */
    method FireCancel(t: nat, rows: seq<nat>, r: nat, keys: set<Ref>, now: int)
      requires Valid() && drive.Idle? && Managed(ses, t) && IsPending(ses, t, rows) && r in rows
      modifies this`ses, this`ws, this`es, this`cuts, this`acts
      ensures Extends() && StaysCharted() && Managed(ses, t)
      ensures r < |old(ses).tranches| && ses == FireRow(old(ses), t, r, keys, now)
      ensures Fired(old(ses), ses, t, r, keys, now)
    {
      FireMeans(ses, t, r, keys, now);
      WithdrawOthers(t, rows, r, now);
      AllWithdrawn(old(ses), ses, t, rows, r, now);
      PullWorking(t, keys);
      EditTranche(t, r, Filled, now);
    }

    /** The trade's waiting rows. */
    method PendingOf(t: nat) returns (rows: seq<nat>)
      ensures IsPending(ses, t, rows)
    {
      rows := [];
      for r := 0 to |ses.tranches|
        invariant Distinct(rows) && forall k :: 0 <= k < |rows| ==> rows[k] < r
        invariant forall k :: 0 <= k < |rows| ==>
            ses.tranches[rows[k]].trade == t && ses.tranches[rows[k]].state.Waiting?
        invariant forall q :: 0 <= q < r && ses.tranches[q].trade == t && ses.tranches[q].state.Waiting? ==> q in rows
      {
        if ses.tranches[r].trade == t && ses.tranches[r].state.Waiting? {
          rows := rows + [r];
        }
      }
    }

    /** The first waiting cancel row that fires, if any. */
    method FiringRow(t: nat, rows: seq<nat>, f: Facts) returns (hit: Option<nat>)
      requires IsPending(ses, t, rows)
      ensures hit.Some? ==> hit.value in rows && Fires(f, ses, ses.tranches[hit.value])
      ensures hit.None? ==> forall k :: 0 <= k < |rows| ==> !Fires(f, ses, ses.tranches[rows[k]])
    {
      for k := 0 to |rows|
        invariant forall m :: 0 <= m < k ==> !Fires(f, ses, ses.tranches[rows[m]])
      {
        var tr := ses.tranches[rows[k]];
        if tr.role.CancelRow? && Hit(f, tr) && EverFilled(ses, t) {
          return Some(rows[k]);
        }
      }
      return None;
    }

    /** Before row `rows[j]` of a drive that found the session `a` and the calls `sent`. */
    ghost predicate Driving(f: Facts, m: Broker, a: Db, t: nat, rows: seq<nat>, j: nat, alive: bool, clean: bool)
      reads this
    {
      && j <= |rows| && drive.Idle? && KeepsTrades(a, ses)
      && (if alive then StillWait(ses, t, rows, j) else ses == db && !clean)
      && (clean ==> Driven(f, m, a, ses, rows, j))
    }

    /** What a drive may start from. */
    ghost predicate Drivable(a: Db, t: nat, rows: seq<nat>) { Managed(a, t) && Shaped(a) && IsPending(a, t, rows) }

    lemma DrivingStarts(f: Facts, m: Broker, t: nat, rows: seq<nat>)
      requires Valid() && drive.Idle? && IsPending(ses, t, rows)
      ensures Driving(f, m, ses, t, rows, 0, true, true) && (Managed(ses, t) ==> Drivable(ses, t, rows))
    {
      ShapedNow();
    }

    /** Drive row `rows[j]`. `soFar` says every commit since `a` went through. */
    method DriveNext(ghost a: Db, t: nat, rows: seq<nat>, j: nat, f: Facts, m: Broker, soFar: bool)
      returns (alive: bool, clean: bool)
      requires Valid() && Drivable(a, t, rows) && j < |rows|
      requires Driving(f, m, a, t, rows, j, true, soFar)
      modifies this`db, this`ses, this`drive, this`attempts, this`acked, this`ws, this`es, this`cuts, this`acts
      ensures Extends() && StaysCharted() && Driving(f, m, a, t, rows, j + 1, alive, clean)
      ensures soFar && !clean ==> Troubled()
    {
      ghost var b := ses;
      assert Managed(ses, t) && WaitsIn(ses, rows[j], t);
      alive, clean := DriveRow(t, rows[j], f, m);
      RestKeepsTrades(b, ses, rows[j]);
      if soFar && clean {
        DrivenNext(f, m, a, b, ses, rows, j);
      }
      clean := soFar && clean;
    }

    /** Drive each waiting row in turn. A failed commit does not stop the later rows. */
    method DriveRows(t: nat, rows: seq<nat>, f: Facts, m: Broker) returns (alive: bool, clean: bool)
      requires Valid() && drive.Idle? && Managed(ses, t) && IsPending(ses, t, rows)
      modifies this`db, this`ses, this`drive, this`attempts, this`acked, this`ws, this`es, this`cuts, this`acts
      ensures Extends() && StaysCharted() && drive.Idle? && KeepsTrades(old(ses), ses) && (!alive ==> ses == db)
      ensures !clean ==> Troubled()
      ensures clean ==> alive && Driven(f, m, old(ses), ses, rows, |rows|)
      ensures rows == [] ==> alive && ses == old(ses) && attempts == old(attempts)
    {
      ghost var a := ses;
      DrivingStarts(f, m, t, rows);
      alive, clean := true, true;
      var j := 0;
      while j < |rows| && alive
        invariant Extends() && StaysCharted() && Driving(f, m, a, t, rows, j, alive, clean)
        invariant !clean ==> Troubled()
        invariant j == 0 ==> alive && ses == old(ses) && attempts == old(attempts)
      {
        alive, clean := DriveNext(a, t, rows, j, f, m, clean);
        j := j + 1;
      }
    }

    lemma ShapedNow()
      requires Valid()
      ensures Shaped(ses)
    {
      Holds();
    }

    /** Drive trade `t`'s ladder for one tick. `clean` says every commit on the way went through, `alive`
        that the process survived. Without a failed commit no row is left waiting past the entry TTL, and a
        cancel row that fires leaves none waiting and places nothing. */
    method DriveStaged(t: nat, f: Facts, m: Broker) returns (alive: bool, clean: bool)
      requires Valid() && drive.Idle? && Managed(ses, t)
      modifies this`db, this`ses, this`drive, this`attempts, this`acked, this`ws, this`es, this`cuts, this`acts
      ensures Extends() && StaysCharted() && drive.Idle? && KeepsTrades(old(ses), ses) && (!alive ==> ses == db)
      ensures clean || Troubled()
      ensures clean ==> alive && LadderDriven(f, m, old(ses), ses, t)
      ensures clean ==> if CancelDue(f, old(ses), t) then OneFired(f, old(ses), ses, t, m.cancels)
                        else RowsDriven(f, m, old(ses), ses, t)
      ensures CancelDue(f, old(ses), t) ==>
                clean && NoneWaiting(ses, t) && attempts == old(attempts) && EverFilled(old(ses), t)
      ensures NoneWaiting(old(ses), t) ==> alive && ses == old(ses) && attempts == old(attempts)
      ensures clean ==> forall r :: 0 <= r < |ses.tranches| && WaitsIn(ses, r, t) ==> !Stale(f, ses.tranches[r])
    {
      ghost var a := ses;
      var rows := PendingOf(t);
      var hit := FiringRow(t, rows, f);
      if hit.Some? {
        assert WaitsIn(ses, hit.value, t);
        FiredLeavesNone(ses, t, hit.value, m.cancels, f.now);
        FireCancel(t, rows, hit.value, m.cancels, f.now);
        DriveFired(f, m, a, ses, t, hit.value);
        return true, true;
      }
      NoneFires(f, ses, t, rows);
      assert rows != [] ==> WaitsIn(ses, rows[0], t);
      SomeFiresWhen(f, ses, t);
      alive, clean := DriveRows(t, rows, f, m);
      if clean {
        DriveMeans(f, m, a, ses, t);
        forall r | 0 <= r < |ses.tranches| && WaitsIn(ses, r, t) ensures !Stale(f, ses.tranches[r]) {
          DrivenNotStale(f, m, a, ses, t, rows, r);
        }
      }
    }

    // ---- one trade's tick --------------------------------------------------------------------------

    lemma WellFormedNow()
      requires Valid()
      ensures WellFormed(ses)
    {
      Holds();
    }

    /** Latch the best price seen. It covers the tick's price and what was latched, and knows of a level exactly
        when one of them or the candle reached it. */
    method LatchMfe(t: nat, v: View, price: real) returns (mfe: real)
      requires Valid() && drive.Idle? && Managed(ses, t)
      modifies this`ses, this`ws, this`es
      ensures Extends() && mfe == MfeOf(old(ses), t, v, price)
      ensures ses == Latched(old(ses), t, mfe)
      ensures LatchIsRight(old(ses), t, v, price, mfe)
    {
      LatchMeans(ses, t, v, price);
      ghost var was := ses;
      var tr := ses.trades[t];
      mfe := TickMfe(tr.side, tr.mfe, price, v.hi, v.lo, v.quote);
      ses := ses.(trades := ses.trades[t := tr.(mfe := Some(mfe))]);
      assert EditOk(was, ses, t);
      Record(Edit(t, ses));
    }

    /** The trade's legs reconciliation looks at. */
    method ActiveLegs(t: nat) returns (ids: seq<nat>)
      ensures ActiveIds(ses, t, ids)
    {
      ids := [];
      for i := 0 to |ses.legs|
        invariant Distinct(ids)
        invariant forall k :: 0 <= k < |ids| ==>
                    ids[k] < i && ses.legs[ids[k]].trade == t && Active(ses.legs[ids[k]].status)
        invariant forall m :: 0 <= m < i && ses.legs[m].trade == t && Active(ses.legs[m].status) ==> m in ids
      {
        if ses.legs[i].trade == t && Active(ses.legs[i].status) {
          ids := ids + [i];
        }
      }
    }

    /** Match the broker's positions, orders and transactions to the legs. */
    method ReconcileLegs(t: nat, snap: Snapshot, ids: seq<nat>, mute: set<nat>) returns (n: nat, cut: bool)
      requires Valid() && drive.Idle? && Managed(ses, t) && LegsOfTrade(ses, t, ids)
      modifies this`ses, this`ws, this`es
      ensures EndsAfter(CtxFor(old(ses), t, snap), ScanOf(old(ses)), ids, mute, n, cut)
      ensures Extends() && ses == Reconciled(old(ses), t, snap, ids[..n], cut) && LegsOfTrade(ses, t, ids)
    {
      WellFormedNow();
      var legs, tranches;
      legs, tranches, n, cut := Pass1(CtxFor(ses, t, snap), ScanOf(ses), ids, mute);
      var done := ids[..n];
      PassIsLocal(ses, t, snap, done, cut);
      EvolvedLegsOf(ses, Reconciled(ses, t, snap, done, cut), t, ids);
      assert cut ==> done[..n - 1] == ids[..n - 1];
      ses := Db(ses.trades, tranches, legs);
      Record(Pass(t, snap, done, cut));
    }

    /** Move one leg's stop to what the rules want, if the broker takes it. */
    method MoveStop(t: nat, i: nat, v: View, price: real, tps: map<int, real>, hits: set<int>)
      requires Valid() && drive.Idle? && Managed(ses, t) && i < |ses.legs| && ses.legs[i].trade == t
      modifies this`ses, this`ws, this`es
      ensures Extends()
      ensures ses == SetLeg(old(ses), i, Ratcheted(old(ses).trades[t].side, v, price, tps, hits, old(ses).legs[i]))
    {
      LegsAreOk();
      var side, leg := ses.trades[t].side, ses.legs[i];
      RatchetedEvolves(side, v, price, tps, hits, leg);
      var p := LivePos(v.snap.positions, leg.posRef);
      if !leg.status.Open? || p.None? {
        assert ses.legs[i := leg] == ses.legs;
        return;
      }
      var next := Healed(leg, p.value);
      var stop := Evaluate(StopContext(side, v, price, tps, next), v.rules, hits);
      if stop.Some? && p.value.ref in v.broker.moves {
        next := next.(sl := stop.value, slMoved := true);
      }
      EditLeg(t, i, next);
    }

    /** The ratchet over the legs that were live when the tick began. */
    method MoveStops(t: nat, ids: seq<nat>, v: View, price: real, tps: map<int, real>, hits: set<int>)
      requires Valid() && drive.Idle? && Managed(ses, t) && LegsOfTrade(ses, t, ids) && Distinct(ids)
      modifies this`ses, this`ws, this`es
      ensures Extends() && ses == StopsMoved(old(ses), t, ids, v, price, tps, hits)
    {
      ghost var a := ses;
      assert StopsMoved(a, t, ids[..0], v, price, tps, hits).legs == a.legs;
      for k := 0 to |ids|
        invariant Extends() && ses == StopsMoved(a, t, ids[..k], v, price, tps, hits)
      {
        StopsMovedNext(a, t, ids, k, v, price, tps, hits);
        MoveStop(t, ids[k], v, price, tps, hits);
      }
      assert ids[..|ids|] == ids;
    }

    method Retire(t: nat, i: nat, now: int)
      requires Valid() && drive.Idle? && Managed(ses, t)
      requires i < |ses.legs| && ses.legs[i].trade == t && ses.legs[i].status.Working?
      modifies this`ses, this`ws, this`es, this`cuts, this`acts
      ensures Extends() && StaysCharted() && ses == RetireLeg(old(ses), i, now)
    {
      WellFormedNow();
      RetireLegOk(ses, i, t, now);
      ses := RetireLeg(ses, i, now);
      Note(Edit(t, ses));
    }

    /** Cancel the resting entries that the broker still lists and lets go. */
    method RetireResting(t: nat, orders: set<Ref>, cancels: set<Ref>, now: int)
      requires Valid() && drive.Idle? && Managed(ses, t)
      modifies this`ses, this`ws, this`es, this`cuts, this`acts
      ensures Extends() && StaysCharted() && ses == RetirePulled(old(ses), t, orders * cancels, now, |old(ses).legs|)
    {
      ghost var a := ses;
      ghost var keys := orders * cancels;
      assert a.legs == PullOrders(a.legs, t, keys, 0) && a.tranches == RetirePulled(a, t, keys, now, 0).tranches;
      for i := 0 to |ses.legs|
        invariant Extends() && StaysCharted() && ses == RetirePulled(a, t, keys, now, i)
      {
        RetireNext(a, t, keys, now, i);
        var leg := ses.legs[i];
        if leg.trade == t && leg.status.Working? && leg.orderRef.Some? && leg.orderRef.value in orders {
          if leg.orderRef.value in cancels {
            Retire(t, i, now);
          }
        }
      }
    }

    /** Sum the auditable legs into the trade and close it when nothing of it is left. */
    method RollUpTrade(t: nat)
      requires Valid() && drive.Idle? && Managed(ses, t)
      modifies this`ses, this`ws, this`es, this`cuts, this`acts
      ensures Extends() && StaysCharted() && ses == RolledUp(old(ses), t) && InSync(ses, t)
      ensures ses.trades[t].status.Done? <==> Quiet(ses, t)
    {
      ses := RolledUp(ses, t);
      Note(RollUp(t));
    }

    /** Close a trade that has nothing live left. */
    method CloseQuiet(t: nat)
      requires Valid() && drive.Idle? && Managed(ses, t) && Quiet(ses, t)
      modifies this`ses, this`ws, this`es, this`cuts, this`acts
      ensures Extends() && StaysCharted() && ses == SetStatus(old(ses), t, Done)
    {
      ses := SetStatus(ses, t, Done);
      Note(CloseIdle(t));
    }

    /** Retire stale entries when the trade is in play or over. */
    method RetireStale(t: nat, v: View, tpsHit: bool)
      requires Valid() && drive.Idle? && Managed(ses, t)
      modifies this`ses, this`ws, this`es, this`cuts, this`acts
      ensures Extends() && StaysCharted() && ses == Retired(old(ses), t, v, tpsHit)
    {
      var why := CancelReason(ses, t, tpsHit, AnyMoved(ses, t));
      if v.cancelOnStop && why.Some? {
        RetireResting(t, v.snap.orders, v.broker.cancels, v.snap.now);
        if why.value.StoppedOut? {
          ghost var m := ses;
          var rows := PendingOf(t);
          WithdrawOthers(t, rows, |ses.tranches|, v.snap.now);
          AllWithdrawn(m, ses, t, rows, |m.tranches|, v.snap.now);
        }
      }
    }

    /** Latch and reconcile. A close that cannot be announced ends the tick there, and a failing read of the
        tables right after the pass. */
    method LatchAndPass(t: nat, v: View, price: real, ids: seq<nat>, staged: bool) returns (raised: bool, mfe: real)
      requires Valid() && drive.Idle? && Managed(ses, t) && LegsOfTrade(ses, t, ids)
      modifies this`ses, this`ws, this`es
      ensures Extends() && mfe == MfeOf(old(ses), t, v, price) && LegsOfTrade(ses, t, ids)
      ensures ses.trades == Latched(old(ses), t, mfe).trades
      ensures !raised ==> ses == Reconciled(Latched(old(ses), t, mfe), t, SnapOf(v, price, staged), ids, false)
                          && Announced(old(ses), t, v, price, ids, staged)
      ensures raised ==> BrokenOff(old(ses), ses, t, v, price, ids, staged)
    {
      mfe := LatchMfe(t, v, price);
      var n, cut := ReconcileLegs(t, SnapOf(v, price, staged), ids, v.mute);
      assert !cut ==> ids[..n] == ids;
      var unreadable: bool := *;
      raised := cut || unreadable;
    }

    /** Latch, reconcile and ratchet. `hit` says whether any TP was reached. */
    method ReviewLegs(t: nat, v: View, price: real, ids: seq<nat>, staged: bool) returns (raised: bool, hit: bool)
      requires Valid() && drive.Idle? && Managed(ses, t) && LegsOfTrade(ses, t, ids) && Distinct(ids)
      modifies this`ses, this`ws, this`es, this`cuts, this`acts
      ensures Extends() && StaysCharted() && KeepsTrades(old(ses), ses)
      ensures !raised ==> ses == Reviewed(old(ses), t, v, price, ids, staged)
                          && hit == TpsReached(old(ses), t, v, price, ids, staged)
                          && Announced(old(ses), t, v, price, ids, staged)
      ensures raised ==> BrokenOff(old(ses), ses, t, v, price, ids, staged)
    {
      ghost var was, w := ws, Now();
      var mfe;
      raised, mfe := LatchAndPass(t, v, price, ids, staged);
      hit := false;
      if raised {
        MarkBreak(was, w, t, v, price, ids, staged);
      } else {
        var tps := TpLevels(ses.legs, t);
        var hits := HitsOf(ses, t, ses.trades[t].side, mfe);
        hit := hits != {};
        MoveStops(t, ids, v, price, tps, hits);
        MarkReview(was, w, t, v, price, ids, staged);
      }
    }

    /** Review the legs and retire stale entries: everything before the ladder. */
    method ManageLegs(t: nat, v: View, price: real, ids: seq<nat>, staged: bool) returns (raised: bool)
      requires Valid() && drive.Idle? && Managed(ses, t) && LegsOfTrade(ses, t, ids) && Distinct(ids)
      modifies this`ses, this`ws, this`es, this`cuts, this`acts
      ensures Extends() && StaysCharted() && KeepsTrades(old(ses), ses)
      ensures !raised ==> ses == LegsManaged(old(ses), t, v, price, ids, staged)
                          && Announced(old(ses), t, v, price, ids, staged)
      ensures raised ==> BrokenOff(old(ses), ses, t, v, price, ids, staged)
    {
      var hit;
      raised, hit := ReviewLegs(t, v, price, ids, staged);
      if !raised {
        RetireStale(t, v, hit);
      }
    }

    /** Drive the ladder of a staged trade that has its entry row. */
    method DriveIfStaged(t: nat, v: View, price: real, staged: bool) returns (alive: bool, clean: bool)
      requires Valid() && drive.Idle? && Managed(ses, t)
      modifies this`db, this`ses, this`drive, this`attempts, this`acked, this`ws, this`es, this`cuts, this`acts
      ensures Extends() && StaysCharted() && drive.Idle? && KeepsTrades(old(ses), ses) && (!alive ==> ses == db)
      ensures clean || Troubled()
      ensures clean ==> alive && DrivenIfStaged(old(ses), ses, t, v, price, staged)
      ensures NoneWaiting(old(ses), t) ==> alive && ses == old(ses) && attempts == old(attempts)
      ensures clean && staged && v.entry.Some? ==> NoneOverdue(ses, t, v)
    {
      if staged && v.entry.Some? {
        alive, clean := DriveStaged(t, FactsOf(v, ses.trades[t], price, v.entry.value), v.broker);
      } else {
        alive, clean := true, true;
      }
    }

    /** Drive the ladder, then roll up. `driven` is the session between the two. */
    method DriveAndRoll(t: nat, v: View, price: real, staged: bool) returns (alive: bool, clean: bool, ghost driven: Db)
      requires Valid() && drive.Idle? && Managed(ses, t)
      modifies this`db, this`ses, this`drive, this`attempts, this`acked, this`ws, this`es, this`cuts, this`acts
      ensures Extends() && StaysCharted() && drive.Idle? && KeepsOthers(old(ses), ses, t)
      ensures (!alive ==> ses == db) && (clean || Troubled())
      ensures alive ==> Managed(driven, t) && ses == RolledUp(driven, t) && InSync(ses, t)
      ensures clean ==> alive && DrivenIfStaged(old(ses), driven, t, v, price, staged)
      ensures NoneWaiting(old(ses), t) ==> alive && driven == old(ses) && attempts == old(attempts)
      ensures clean && staged && v.entry.Some? ==> NoneOverdue(ses, t, v)
    {
      alive, clean := DriveIfStaged(t, v, price, staged);
      driven := ses;
      if alive {
        RollUpTrade(t);
      }
    }

    /** Manage the legs, drive the ladder, roll up. An exception on the way skips the rest. */
    method TickLive(t: nat, v: View, price: real, ids: seq<nat>, staged: bool)
      returns (alive: bool, rolled: bool, clean: bool)
      requires Valid() && drive.Idle? && Managed(ses, t) && ActiveIds(ses, t, ids)
      modifies this`db, this`ses, this`drive, this`attempts, this`acked, this`ws, this`es, this`cuts, this`acts
      ensures Extends() && StaysCharted() && drive.Idle? && KeepsOthers(old(ses), ses, t)
      ensures (!alive ==> ses == db) && (clean || Troubled())
      ensures rolled ==> alive && InSync(ses, t) && t < |ses.trades| && (ses.trades[t].status.Done? <==> Quiet(ses, t))
      ensures alive && clean ==> LegsTicked(old(ses), ses, t, v, price, ids, staged)
      ensures rolled && clean ==> Ticked(old(ses), ses, t, v, price, ids, staged)
      ensures (rolled && v.cancelOnStop && OutOfMarket(Reviewed(old(ses), t, v, price, ids, staged), t))
                ==> (NoneWaiting(ses, t) && attempts == old(attempts))
      ensures rolled && clean && staged && v.entry.Some? ==> NoneOverdue(ses, t, v)
    {
      RetiredMeans(Reviewed(ses, t, v, price, ids, staged), t, v, TpsReached(ses, t, v, price, ids, staged));
      var raised := ManageLegs(t, v, price, ids, staged);
      if raised {
        return true, false, true;
      }
      ghost var d;
      alive, clean, d := DriveAndRoll(t, v, price, staged);
      rolled := alive;
      if rolled {
        RolledStatus(d, t);
      }
    }

    /** One trade's tick. `rolled` says it ran to its roll-up, `clean` that no commit on the way failed,
        `staged` that the trade has a ladder. */
    method ProcessTrade(t: nat, v: View)
      returns (alive: bool, rolled: bool, clean: bool, staged: bool, ghost ids: seq<nat>)
      requires Valid() && drive.Idle? && Managed(ses, t)
      modifies this`db, this`ses, this`drive, this`attempts, this`acked, this`ws, this`es, this`cuts, this`acts
      ensures Extends() && StaysCharted() && drive.Idle? && KeepsOthers(old(ses), ses, t)
      ensures (!alive ==> ses == db) && (clean || Troubled())
      ensures alive && clean ==> TradeTicked(old(ses), ses, t, v)
      ensures staged <==> old(ses).trades[t].staged || !NoneWaiting(old(ses), t)
      ensures rolled ==> alive && InSync(ses, t) && t < |ses.trades| && (ses.trades[t].status.Done? <==> Quiet(ses, t))
      ensures rolled ==> ClosingSide(old(ses).trades[t].side, v.quote).Some? && ActiveIds(old(ses), t, ids)
      ensures rolled && clean ==>
                Ticked(old(ses), ses, t, v, ClosingSide(old(ses).trades[t].side, v.quote).value, ids, staged)
      ensures rolled && v.cancelOnStop ==>
                (OutOfMarket(Reviewed(old(ses), t, v, ClosingSide(old(ses).trades[t].side, v.quote).value, ids, staged),
                             t)
                 ==> NoneWaiting(ses, t) && attempts == old(attempts))
      ensures rolled && clean && staged && v.entry.Some? ==> NoneOverdue(ses, t, v)
    {
      alive, rolled, clean := true, false, true;
      var live := ActiveLegs(t);
      var rows := PendingOf(t);
      ids, staged := live, ses.trades[t].staged || rows != [];
      PendingMeans(ses, t, live, rows);
      if live == [] && rows == [] {
        CloseQuiet(t);
        return;
      }
      var price := ClosingSide(ses.trades[t].side, v.quote);
      if price.Some? {
        alive, rolled, clean := TickLive(t, v, price.value, live, staged);
      }
    }

    /** One tick: every trade the session manages, then one commit for what is left uncommitted. `views` is
        what the broker and the configuration say about each trade. Every trade managed at the start is still
        managed when its turn comes, and is ticked in it, unless a commit fails in that turn. */
    method Tick(views: nat -> View) returns (alive: bool, ghost turns: seq<nat>)
      requires Valid() && drive.Idle? && db == ses
      modifies this`db, this`ses, this`drive, this`attempts, this`acked, this`ws, this`es, this`cuts, this`acts
      ensures Extends() && StaysCharted() && drive.Idle? && db == ses
      ensures alive ==> TurnsTaken(ws, es, turns, old(ses), |old(ses).trades|, views)
                        && turns[0] == |old(es)| && turns[|old(ses).trades|] == |es| - 1 && es[|es| - 1].CommitAll?
    {
      var n := |ses.trades|;
      alive, turns := true, [|es|];
      for t := 0 to n
        invariant Extends() && StaysCharted() && drive.Idle?
        invariant TurnsTaken(ws, es, turns, old(ses), t, views) && turns[0] == |old(es)| && turns[t] == |es|
        invariant forall u :: t <= u < n && Managed(old(ses), u) ==> Managed(ses, u)
      {
        ghost var us, fs := ws, es;
        if Managed(ses, t) {
          var rolled, clean, staged;
          ghost var ids;
          alive, rolled, clean, staged, ids := ProcessTrade(t, views(t));
          if !alive {
            return;
          }
        }
        TurnsGrow(us, fs, ws, es, turns, old(ses), t, views);
        turns := turns + [|es|];
      }
      ghost var us, fs := ws, es;
      var end := CommitNow();
      TurnsKeep(us, fs, ws, es, turns, old(ses), n, views);
    }
  }

  /** Trade `t` had its turn in the run's events from `from` up to `to`. */
  ghost predicate Turn(ws: seq<World>, es: seq<Event>, from: nat, to: nat, t: nat, v: View) {
    && |ws| == |es| + 1 && from <= to < |ws| && Managed(ws[from].ses, t)
    && (TradeTicked(ws[from].ses, ws[to].ses, t, v) || exists k :: from <= k < to && Trouble(es[k]))
  }

  /** The first `n` trades that were managed in `d` had their turns, one after the other. */
  ghost predicate TurnsTaken(ws: seq<World>, es: seq<Event>, turns: seq<nat>, d: Db, n: nat, views: nat -> View) {
    && |turns| == n + 1
    && forall t :: 0 <= t < n && Managed(d, t) ==> Turn(ws, es, turns[t], turns[t + 1], t, views(t))
  }

  lemma TurnsKeep(us: seq<World>, fs: seq<Event>, ws: seq<World>, es: seq<Event>, turns: seq<nat>, d: Db, n: nat,
                  views: nat -> View)
    requires TurnsTaken(us, fs, turns, d, n, views) && us <= ws && fs <= es && |us| == |fs| + 1 && |ws| == |es| + 1
    ensures TurnsTaken(ws, es, turns, d, n, views)
  {
    forall t | 0 <= t < n && Managed(d, t) ensures Turn(ws, es, turns[t], turns[t + 1], t, views(t)) {
      assert Turn(us, fs, turns[t], turns[t + 1], t, views(t));
      if k :| turns[t] <= k < turns[t + 1] && Trouble(fs[k]) {
        assert Trouble(es[k]);
      }
    }
  }

  lemma TurnsGrow(us: seq<World>, fs: seq<Event>, ws: seq<World>, es: seq<Event>, turns: seq<nat>, d: Db, n: nat,
                  views: nat -> View)
    requires TurnsTaken(us, fs, turns, d, n, views) && us <= ws && fs <= es && |us| == |fs| + 1 && |ws| == |es| + 1
    requires turns[n] == |fs| && (Managed(d, n) ==> Turn(ws, es, |fs|, |es|, n, views(n)))
    ensures TurnsTaken(ws, es, turns + [|es|], d, n + 1, views)
  {
    TurnsKeep(us, fs, ws, es, turns, d, n, views);
    var more := turns + [|es|];
    forall t | 0 <= t < n + 1 && Managed(d, t) ensures Turn(ws, es, more[t], more[t + 1], t, views(t)) {
      if t < n {
        assert more[t] == turns[t] && more[t + 1] == turns[t + 1];
      } else {
        assert more[t] == |fs| && more[t + 1] == |es|;
      }
    }
  }
}
