/** The batch restatement of the book: one total per trade recomputed from its closed legs. */
module Restate {
  import opened Wrappers
  import opened Rows
  import opened Book
  import opened Invariants
  import opened RollUps
  import opened Money

  datatype Scope = AuditableLegs | AllLegs

  /** A closed leg whose money is known. */
  predicate Priced(l: Leg) { l.status.Closed? && l.close.Some? && l.close.value.pl.Some? }

  predicate InScope(l: Leg, scope: Scope) {
    Priced(l) && (scope.AllLegs? || Auditable(l.close.value.basis))
  }

  function Amount(l: Leg): real { if Priced(l) then l.close.value.pl.value else 0.0 }

  function Total(legs: seq<Leg>, t: nat, scope: Scope): real {
    if legs == [] then 0.0
    else
      var n := |legs| - 1;
      Total(legs[..n], t, scope) + if legs[n].trade == t && InScope(legs[n], scope) then Amount(legs[n]) else 0.0
  }

  /** The money the auditable total leaves out. */
  function Excluded(legs: seq<Leg>, t: nat): real {
    if legs == [] then 0.0
    else
      var n := |legs| - 1;
      Excluded(legs[..n], t)
      + if legs[n].trade == t && Priced(legs[n]) && !InScope(legs[n], AuditableLegs) then Amount(legs[n]) else 0.0
  }

  /** Only trades with a priced leg have a row to be updated from. */
  predicate HasMoney(legs: seq<Leg>, t: nat) {
    exists i :: 0 <= i < |legs| && legs[i].trade == t && Priced(legs[i])
  }

  function Restated(trades: seq<Trade>, legs: seq<Leg>, scope: Scope): (r: seq<Trade>)
    ensures |r| == |trades|
  {
    seq(|trades|, t requires 0 <= t < |trades| =>
      if HasMoney(legs, t) then trades[t].(realized := Total(legs, t, scope)) else trades[t])
  }

  /** Trades an update would write. */
  function Stale(trades: seq<Trade>, legs: seq<Leg>, scope: Scope): set<int> {
    set t | 0 <= t < |trades| && HasMoney(legs, t) && trades[t].realized != Total(legs, t, scope)
  }

  /** The stale rows among the first `k`. */
  function StaleBelow(trades: seq<Trade>, legs: seq<Leg>, scope: Scope, k: int): set<int> {
    set t | t in Stale(trades, legs, scope) && t < k
  }

  lemma StaleNext(trades: seq<Trade>, legs: seq<Leg>, scope: Scope, k: nat)
    requires k < |trades|
    ensures |StaleBelow(trades, legs, scope, k + 1)|
         == |StaleBelow(trades, legs, scope, k)| + if k in Stale(trades, legs, scope) then 1 else 0
  {
    var below, now := StaleBelow(trades, legs, scope, k), StaleBelow(trades, legs, scope, k + 1);
    assert now == if k in Stale(trades, legs, scope) then below + {k} else below;
  }

  /** The update, in place: only rows that would change are written, and counted. */
  method Update(trades: array<Trade>, legs: seq<Leg>, scope: Scope) returns (changed: nat)
    modifies trades
    ensures trades[..] == Restated(old(trades[..]), legs, scope)
    ensures changed == |Stale(old(trades[..]), legs, scope)|
    ensures changed == 0 <==> trades[..] == old(trades[..])
  {
    changed := 0;
    ghost var was := trades[..];
    ghost var want := Restated(was, legs, scope);
    for t := 0 to trades.Length
      invariant changed == |StaleBelow(was, legs, scope, t)|
      invariant forall u :: 0 <= u < trades.Length ==> trades[u] == if u < t then want[u] else was[u]
    {
      StaleNext(was, legs, scope, t);
      if HasMoney(legs, t) && trades[t].realized != Total(legs, t, scope) {
        trades[t] := trades[t].(realized := Total(legs, t, scope));
        changed := changed + 1;
      }
    }
    assert StaleBelow(was, legs, scope, trades.Length) == Stale(was, legs, scope);
    assert trades[..] == want;
    ChangedWhenStale(was, legs, scope);
  }

  /** A restatement changes the table exactly when some row is stale. */
  lemma ChangedWhenStale(trades: seq<Trade>, legs: seq<Leg>, scope: Scope)
    ensures Stale(trades, legs, scope) == {} <==> Restated(trades, legs, scope) == trades
  {
    if Stale(trades, legs, scope) != {} {
      var t :| t in Stale(trades, legs, scope);
      assert Restated(trades, legs, scope)[t] != trades[t];
    } else {
      forall t | 0 <= t < |trades| ensures Restated(trades, legs, scope)[t] == trades[t] {
        assert t !in Stale(trades, legs, scope);
      }
    }
  }

  /** A second run, of either kind, sees only the legs: the last restatement wins, and repeating it
      changes nothing. */
  lemma LastRestatementWins(trades: seq<Trade>, legs: seq<Leg>, first: Scope, second: Scope)
    ensures Restated(Restated(trades, legs, first), legs, second) == Restated(trades, legs, second)
    ensures Stale(Restated(trades, legs, second), legs, second) == {}
  {}

  /** Auditable plus excluded is what was reported. */
  lemma {:induction false} ReportAddsUp(legs: seq<Leg>, t: nat)
    ensures Total(legs, t, AuditableLegs) + Excluded(legs, t) == Total(legs, t, AllLegs)
  {
    if legs != [] {
      ReportAddsUp(legs[..|legs| - 1], t);
    }
  }

  /** The monitor's sum over a trade's legs and the script's are one. */
  lemma {:induction false} SameTotal(legs: seq<Leg>, t: nat)
    ensures Total(legs, t, AuditableLegs) == AuditSum(legs, t)
  {
    if legs != [] {
      SameTotal(legs[..|legs| - 1], t);
    }
  }

  lemma {:induction false} NoMoneyNoTotal(legs: seq<Leg>, t: nat)
    requires !HasMoney(legs, t)
    ensures AuditSum(legs, t) == 0.0
  {
    if legs != [] {
      var n := |legs| - 1;
      assert forall i :: 0 <= i < n ==> legs[..n][i] == legs[i];
      NoMoneyNoTotal(legs[..n], t);
    }
  }

  /** The monitor's roll-up is a fixed point: restating what it stored changes nothing. */
  lemma RollUpIsFixpoint(d: Db, t: nat)
    requires t < |d.trades|
    ensures var e := RolledUp(d, t); Restated(e.trades, e.legs, AuditableLegs)[t] == e.trades[t]
  {
    SameTotal(d.legs, t);
  }

  /** And the restatement repairs exactly what a lost roll-up broke: afterwards a trade's stored total
      is right, unless the trade never had a priced leg and stored something other than nothing. */
  lemma RestatementRepairs(d: Db, t: nat)
    requires t < |d.trades|
    ensures InSync(d.(trades := Restated(d.trades, d.legs, AuditableLegs)), t)
       <==> HasMoney(d.legs, t) || d.trades[t].realized == 0.0
  {
    SameTotal(d.legs, t);
    if !HasMoney(d.legs, t) {
      NoMoneyNoTotal(d.legs, t);
    }
  }

  // ---- the whole book ----------------------------------------------------------------------------

  function Stored(trades: seq<Trade>): real {
    if trades == [] then 0.0 else Stored(trades[..|trades| - 1]) + trades[|trades| - 1].realized
  }

  lemma {:induction false} StoredInSync(d: Db, n: nat)
    requires n <= |d.trades| && forall t :: 0 <= t < n ==> InSync(d, t)
    ensures Stored(d.trades[..n]) == BookTotal(d.legs, n)
    decreases n
  {
    if n > 0 {
      StoredInSync(d, n - 1);
      assert d.trades[..n][..n - 1] == d.trades[..n - 1];
      assert InSync(d, n - 1);
    }
  }

  /** After a restatement the trades table adds up to the auditable book, which is what the broker paid,
      when no trade without a priced leg had a total of its own. */
  lemma RestatedBook(d: Db)
    requires forall t :: 0 <= t < |d.trades| ==> HasMoney(d.legs, t) || d.trades[t].realized == 0.0
    ensures Stored(Restated(d.trades, d.legs, AuditableLegs)) == BookTotal(d.legs, |d.trades|)
  {
    var e := d.(trades := Restated(d.trades, d.legs, AuditableLegs));
    forall t | 0 <= t < |d.trades| ensures InSync(e, t) {
      RestatementRepairs(d, t);
    }
    StoredInSync(e, |d.trades|);
    assert e.trades[..|d.trades|] == e.trades;
  }
}
