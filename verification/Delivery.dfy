/**
 Signal delivery: a durable at-least-once queue, one sequential consumer with a duplicate check,
 and a sweep that re-enqueues validated signals that never became trades.
 */
module Delivery {
  import opened Wrappers

  type SignalId = nat
  type AccountId = nat

  /** One signal on one account: what a trade is for. */
  datatype Key = Key(signal: SignalId, account: AccountId)

  datatype Status = Validated | Executed | Skipped | Blocked

  datatype Signal = Signal(status: Status, createdAt: int)

  /** The consumer's memory while it handles one signal; `placing` orders are at the broker. */
  datatype Flight = Idle | Fanning(signal: SignalId, todo: seq<AccountId>, placing: Option<AccountId>)

  /** Durable rows and queue, the consumer's memory, and two ghost tallies: fanouts that reached
      the broker, and fanouts whose commit never happened. */
  datatype State = State(signals: map<SignalId, Signal>, trades: multiset<Key>, queue: seq<SignalId>, flight: Flight,
                         fanouts: multiset<Key>, aborted: multiset<Key>)

  predicate Tradeless(s: State, id: SignalId) {
    forall k :: k in s.trades ==> k.signal != id
  }

  /** What the sweep looks for. */
  predicate Stranded(s: State, id: SignalId) {
    id in s.signals && s.signals[id].status == Validated && Tradeless(s, id)
  }

  /** One atomic action of the executor, its environment, or a crash. */
  datatype Event =
    | Ingest(id: SignalId, now: int, queued: bool)
    | Enqueue(id: SignalId)
    | Drop
    | Resolve(status: Status)
    | Open(accounts: seq<AccountId>)
    | SkipAccount
    | Place
    | CommitTrade
    | Finish
    | Die

  /** The consumer loses its memory; a fanout already at the broker is then unrecorded. */
  function Forget(s: State): State {
    if s.flight.Fanning? && s.flight.placing.Some?
    then s.(flight := Idle, aborted := s.aborted + multiset{Key(s.flight.signal, s.flight.placing.value)})
    else s.(flight := Idle)
  }

  predicate CanPop(s: State) { s.flight == Idle && s.queue != [] }

  function Head(s: State): SignalId
    requires CanPop(s)
  {
    s.queue[|s.queue| - 1]
  }

  function Pop(s: State): State
    requires CanPop(s)
  {
    s.(queue := s.queue[..|s.queue| - 1])
  }

  predicate Dispatching(s: State) {
    s.flight.Fanning? && s.flight.placing.None? && s.flight.todo != []
  }

  /** Which actions are possible. A popped signal that already executed is only ever dropped. */
  predicate Enabled(s: State, e: Event) {
    match e
    case Ingest(id, _, _) => id !in s.signals
    case Enqueue(_) => true
    case Drop => CanPop(s)
    case Resolve(status) =>
      CanPop(s) && Head(s) in s.signals && s.signals[Head(s)].status != Executed
      && (status == Skipped || status == Blocked)
    case Open(_) => CanPop(s) && Head(s) in s.signals && s.signals[Head(s)].status != Executed
    case SkipAccount => Dispatching(s)
    case Place => Dispatching(s) && Key(s.flight.signal, s.flight.todo[0]) !in s.trades
    case CommitTrade => s.flight.Fanning? && s.flight.placing.Some?
    case Finish => s.flight.Fanning? && s.flight.placing.None? && s.flight.todo == [] && s.flight.signal in s.signals
    case Die => true
  }

  function SetStatus(s: State, id: SignalId, status: Status): State
    requires id in s.signals
  {
    s.(signals := s.signals[id := s.signals[id].(status := status)])
  }

  function Apply(s: State, e: Event): State
    requires Enabled(s, e)
  {
    match e
    case Ingest(id, now, queued) =>
      s.(signals := s.signals[id := Signal(Validated, now)], queue := if queued then [id] + s.queue else s.queue)
    case Enqueue(id) => s.(queue := [id] + s.queue)
    case Drop => Pop(s)
    case Resolve(status) => SetStatus(Pop(s), Head(s), status)
    case Open(accounts) => Pop(s).(flight := Fanning(Head(s), accounts, None))
    case SkipAccount => s.(flight := s.flight.(todo := s.flight.todo[1..]))
    case Place =>
      s.(flight := Fanning(s.flight.signal, s.flight.todo[1..], Some(s.flight.todo[0])),
         fanouts := s.fanouts + multiset{Key(s.flight.signal, s.flight.todo[0])})
    case CommitTrade =>
      s.(flight := s.flight.(placing := None),
         trades := s.trades + multiset{Key(s.flight.signal, s.flight.placing.value)})
    case Finish => SetStatus(s, s.flight.signal, Executed).(flight := Idle)
    case Die => Forget(s)
  }

  predicate Step(s: State, t: State, e: Event) { Enabled(s, e) && t == Apply(s, e) }

  ghost predicate Next(s: State, t: State) { exists e :: Step(s, t, e) }

  const EMPTY := State(map[], multiset{}, [], Idle, multiset{}, multiset{})

  ghost predicate Run(run: seq<State>) {
    run != [] && run[0] == EMPTY && forall k :: 0 <= k < |run| - 1 ==> NextAt(run, k)
  }

  ghost predicate NextAt(run: seq<State>, k: nat)
    requires k + 1 < |run|
  {
    Next(run[k], run[k + 1])
  }

  lemma RunGrows(run: seq<State>, t: State, e: Event)
    requires Run(run) && Step(run[|run| - 1], t, e)
    ensures Run(run + [t])
  {
    var more := run + [t];
    forall k | 0 <= k < |run| ensures NextAt(more, k) {
      if k < |run| - 1 {
        assert NextAt(run, k);
      } else {
        assert Step(more[k], more[k + 1], e);
      }
    }
  }

  function InFlight(s: State): multiset<Key> {
    if s.flight.Fanning? && s.flight.placing.Some? then multiset{Key(s.flight.signal, s.flight.placing.value)}
    else multiset{}
  }

  /** Every fanout is accounted for, and the one in flight has no trade yet. */
  ghost predicate Tallied(s: State) {
    && s.fanouts == s.trades + s.aborted + InFlight(s)
    && forall k :: s.trades[k] + InFlight(s)[k] <= 1
  }

  ghost predicate Known(s: State) {
    && (forall k :: k in s.trades ==> k.signal in s.signals)
    && (s.flight.Fanning? ==> s.flight.signal in s.signals)
  }

  ghost predicate Accounted(s: State) { Tallied(s) && Known(s) }

  lemma StepTallied(s: State, t: State, e: Event)
    requires Tallied(s) && Step(s, t, e)
    ensures Tallied(t)
  {
    match e
    case Place =>
      assert InFlight(s) == multiset{};
    case CommitTrade =>
      assert t.trades == s.trades + InFlight(s);
    case Die =>
      assert t.aborted == s.aborted + InFlight(s);
    case _ =>
      assert InFlight(t) == InFlight(s) && t.trades == s.trades;
  }

  lemma StepAccounted(s: State, t: State, e: Event)
    requires Accounted(s) && Step(s, t, e)
    ensures Accounted(t)
  {
    StepTallied(s, t, e);
  }

  lemma {:induction false} RunAccounted(run: seq<State>, k: nat)
    requires Run(run) && k < |run|
    ensures Accounted(run[k])
  {
    if k > 0 {
      RunAccounted(run, k - 1);
      assert NextAt(run, k - 1);
      var e :| Step(run[k - 1], run[k], e);
      StepAccounted(run[k - 1], run[k], e);
    }
  }

  /** Whatever is enqueued, duplicated, swept, dropped or crashed: at most one committed trade per
      (signal, account), and one broker fanout for it beyond those lost before their commit. */
  lemma OneTradePerKey(run: seq<State>, k: nat, key: Key)
    requires Run(run) && k < |run|
    ensures run[k].trades[key] <= 1
    ensures run[k].fanouts[key] <= 1 + run[k].aborted[key]
    ensures run[k].trades[key] == 1 && InFlight(run[k])[key] == 0
        ==> run[k].fanouts[key] == 1 + run[k].aborted[key]
  {
    RunAccounted(run, k);
  }

  function StrandedIds(s: State): set<SignalId> {
    set id | id in s.signals && Stranded(s, id)
  }
}

/** The consumer loop, the handler and the sweep, each traced into the protocol above. */
module DeliveryWorker {
  import opened Wrappers
  import opened Delivery

  /** Seconds before an unhandled signal counts as stranded, and rows per sweep. */
  const REDRIVE_GRACE_SEC := 60
  const REDRIVE_BATCH := 50

  /** How the gates before the fanout decide on a signal, and on which of its accounts a trade is wanted. */
  datatype Gate = Skip | Block | Go(accounts: seq<AccountId>, wants: set<AccountId>)

  class Executor {
    var signals: map<SignalId, Signal>
    var trades: multiset<Key>
    var queue: seq<SignalId>
    var flight: Flight
    ghost var fanouts: multiset<Key>
    ghost var aborted: multiset<Key>
    ghost var run: seq<State>

    ghost function Now(): State
      reads this
    {
      State(signals, trades, queue, flight, fanouts, aborted)
    }

    ghost predicate Valid()
      reads this
    {
      Run(run) && run[|run| - 1] == Now()
    }

    constructor ()
      ensures Valid() && Now() == EMPTY
    {
      signals, trades, queue, flight := map[], multiset{}, [], Idle;
      fanouts, aborted := multiset{}, multiset{};
      run := [EMPTY];
    }

    /** Append the state just reached to the run. */
    ghost method Record(s: State, e: Event)
      requires Run(run) && run[|run| - 1] == s && Step(s, Now(), e)
      modifies this`run
      ensures Valid() && run == old(run) + [Now()]
    {
      RunGrows(run, Now(), e);
      run := run + [Now()];
    }

    method Ingest(id: SignalId, now: int, queued: bool)
      requires Valid() && id !in signals
      modifies this
      ensures Valid() && old(run) <= run && Now() == Apply(old(Now()), Event.Ingest(id, now, queued))
    {
      ghost var s := Now();
      signals := signals[id := Signal(Validated, now)];
      if queued {
        queue := [id] + queue;
      }
      Record(s, Event.Ingest(id, now, queued));
    }

    method Enqueue(id: SignalId)
      requires Valid()
      modifies this`queue, this`run
      ensures Valid() && old(run) <= run && queue == [id] + old(queue)
    {
      ghost var s := Now();
      queue := [id] + queue;
      Record(s, Event.Enqueue(id));
    }

    /** A restart, or an exception that escapes the handler: the message in hand is gone. */
    method Die()
      requires Valid()
      modifies this`flight, this`aborted, this`run
      ensures Valid() && old(run) <= run && flight == Idle && Now() == Forget(old(Now()))
    {
      ghost var s := Now();
      aborted := Forget(s).aborted;
      flight := Idle;
      Record(s, Event.Die);
    }

    /** What one message may change: only its own signal, and trades only grow. */
    twostate predicate OnlyTouches(id: SignalId)
      reads this
    {
      && signals.Keys == old(signals.Keys)
      && (forall j :: j in signals && j != id ==> signals[j] == old(signals)[j])
      && (id in signals && old(signals)[id].status != Validated ==> signals[id].status != Validated)
      && (id in signals ==> signals[id].createdAt == old(signals)[id].createdAt)
      && old(trades) <= trades
    }

    /** Pop one message and handle it. With `crashFree`, no commit fails and nothing raises: a signal
        already executed, or unknown, is dropped; a gated one gets its status; any other ends executed
        with a trade on every account that wants one. */
    method HandleNext(crashFree: bool, gate: Gate) returns (handled: bool)
      requires Valid() && flight == Idle && queue != []
      modifies this
      ensures Valid() && old(run) <= run && flight == Idle
      ensures queue == old(queue)[..|old(queue)| - 1]
      ensures OnlyTouches(old(queue)[|old(queue)| - 1])
      ensures crashFree ==> handled
      ensures var id := old(queue)[|old(queue)| - 1];
              && (handled && id in signals ==> signals[id].status != Validated)
              && (id !in old(signals) || old(signals)[id].status == Executed ==>
                    signals == old(signals) && trades == old(trades))
              && (crashFree && id in old(signals) && old(signals)[id].status != Executed ==> Handled(id, gate))
    {
      ghost var s := Now();
      var id := queue[|queue| - 1];
      queue := queue[..|queue| - 1];
      var survives: bool := *;
      if id !in signals || signals[id].status == Executed {
        Record(s, Event.Drop);
        return true;
      }
      if !crashFree && !survives {
        Record(s, Event.Drop);
        return false;
      }
      match gate {
        case Go(accounts, wants) =>
          flight := Fanning(id, accounts, None);
          Record(s, Event.Open(accounts));
          handled := FanOut(crashFree, id, accounts, wants);
        case _ =>
          var status := if gate.Block? then Blocked else Skipped;
          signals := signals[id := signals[id].(status := status)];
          Record(s, Event.Resolve(status));
          return true;
      }
    }

    /** What handling does when nothing fails. */
    twostate predicate Handled(id: SignalId, gate: Gate)
      reads this
    {
      && id in signals
      && match gate
         case Skip => signals[id].status == Skipped && trades == old(trades)
         case Block => signals[id].status == Blocked && trades == old(trades)
         case Go(accounts, wants) => signals[id].status == Executed && Traded(id, accounts, wants)
    }

    /** Every account of the list that wants a trade has one, and no other trade was made. */
    twostate predicate Traded(id: SignalId, accounts: seq<AccountId>, wants: set<AccountId>)
      reads this
    {
      && (forall k :: 0 <= k < |accounts| && accounts[k] in wants ==> Key(id, accounts[k]) in trades)
      && (forall key :: key in trades && key !in old(trades) ==>
            key.signal == id && key.account in accounts && key.account in wants)
    }

    /** One account: skipped on a duplicate or when nothing is wanted, else placed and committed. */
    method PlaceOn(crashFree: bool, id: SignalId, account: AccountId, wanted: bool, rest: seq<AccountId>)
      returns (survived: bool)
      requires Valid() && flight == Fanning(id, [account] + rest, None) && id in signals
      modifies this`trades, this`flight, this`fanouts, this`aborted, this`run
      ensures Valid() && old(run) <= run
      ensures flight == if survived then Fanning(id, rest, None) else Idle
      ensures crashFree ==> survived
      ensures trades == old(trades)
           || (wanted && Key(id, account) !in old(trades) && trades == old(trades) + multiset{Key(id, account)})
      ensures crashFree && wanted ==> Key(id, account) in trades
    {
      ghost var s := Now();
      assert ([account] + rest)[1..] == rest;
      var key := Key(id, account);
      var raises: bool, committed: bool := *, *;
      if key in trades || (!raises && !wanted) || (!wanted && crashFree) {
        flight := Fanning(id, rest, None);
        Record(s, Event.SkipAccount);
        return true;
      }
      if raises && !crashFree {
        Die();
        return false;
      }
      flight := Fanning(id, rest, Some(account));
      fanouts := fanouts + multiset{key};
      Record(s, Event.Place);
      if !committed && !crashFree {
        Die();
        return false;
      }
      s := Now();
      trades := trades + multiset{key};
      flight := Fanning(id, rest, None);
      Record(s, Event.CommitTrade);
      survived := true;
    }

    /** Place on each account in turn; the signal's status is written last. */
    method FanOut(crashFree: bool, id: SignalId, accounts: seq<AccountId>, wants: set<AccountId>)
      returns (handled: bool)
      requires Valid() && flight == Fanning(id, accounts, None) && id in signals
      modifies this`signals, this`trades, this`flight, this`fanouts, this`aborted, this`run
      ensures Valid() && old(run) <= run && flight == Idle && old(trades) <= trades
      ensures crashFree ==> handled && Traded(id, accounts, wants)
      ensures signals == if handled then old(signals)[id := old(signals)[id].(status := Executed)] else old(signals)
    {
      var i := 0;
      assert accounts[0..] == accounts;
      while i < |accounts|
        invariant i <= |accounts|
        invariant Valid() && old(run) <= run && flight == Fanning(id, accounts[i..], None)
        invariant signals == old(signals) && old(trades) <= trades
        invariant crashFree ==> forall k :: 0 <= k < i && accounts[k] in wants ==> Key(id, accounts[k]) in trades
        invariant forall key :: key in trades && key !in old(trades) ==>
                    key.signal == id && key.account in accounts && key.account in wants
      {
        assert accounts[i..] == [accounts[i]] + accounts[i + 1..];
        var survived := PlaceOn(crashFree, id, accounts[i], accounts[i] in wants, accounts[i + 1..]);
        if !survived {
          return false;
        }
        i := i + 1;
      }
      var committed: bool := *;
      if !committed && !crashFree {
        Die();
        return false;
      }
      ghost var s := Now();
      signals := signals[id := signals[id].(status := Executed)];
      flight := Idle;
      Record(s, Event.Finish);
      handled := true;
    }

    /** Handle messages until the queue is empty, with no failure. */
    method Drain(gates: SignalId -> Gate)
      requires Valid() && flight == Idle
      modifies this
      ensures Valid() && old(run) <= run && flight == Idle && queue == []
      ensures Settled(old(queue))
    {
      label start:
      while queue != []
        invariant Valid() && old(run) <= run && flight == Idle
        invariant queue <= old(queue)
        invariant Settled(old(queue)[|queue|..])
        decreases |queue|
      {
        ghost var handledSoFar := old(queue)[|queue|..];
        var handled := HandleNext(true, gates(queue[|queue| - 1]));
        assert old(queue)[|queue|..] == [old(queue)[|queue|]] + handledSoFar;
      }
      assert old(queue)[0..] == old(queue);
    }

    /** Every id in `done` is past `validated`, nothing went back to it, and trades only grew. */
    twostate predicate Settled(done: seq<SignalId>)
      reads this
    {
      && signals.Keys == old(signals.Keys)
      && (forall j :: j in signals && old(signals)[j].status != Validated ==> signals[j].status != Validated)
      && (forall j :: j in signals ==> signals[j].createdAt == old(signals)[j].createdAt)
      && (forall j :: j in signals && j in done ==> signals[j].status != Validated)
      && old(trades) <= trades
    }

    method EnqueueAll(batch: set<SignalId>)
      requires Valid()
      modifies this`queue, this`run
      ensures Valid() && old(run) <= run && PutBefore(batch, queue, old(queue))
    {
      var left := batch;
      while left != {}
        invariant Valid() && old(run) <= run && left <= batch && PutBefore(batch - left, queue, old(queue))
        decreases |left|
      {
        var id :| id in left;
        PutOne(batch - left, id, queue, old(queue));
        assert batch - (left - {id}) == batch - left + {id};
        Enqueue(id);
        left := left - {id};
      }
      assert batch - left == batch;
    }

    /** One pass of the sweep: up to a batch of the signals stranded past the grace period. */
    method Sweep(now: int) returns (batch: set<SignalId>)
      requires Valid()
      modifies this`queue, this`run
      ensures Valid() && old(run) <= run
      ensures IsBatch(batch, Overdue(old(Now()), now)) && PutBefore(batch, queue, old(queue))
    {
      var found := set id | id in signals && signals[id].status == Validated
                       && (forall k :: k in trades ==> k.signal != id)
                       && signals[id].createdAt < now - REDRIVE_GRACE_SEC;
      assert found == Overdue(Now(), now);
      batch := PickBatch(found);
      EnqueueAll(batch);
    }

    /** A sweep past the grace period, then a drain with no failure. */
    method Round(now: int, gates: SignalId -> Gate)
      requires Valid() && flight == Idle
      requires forall id :: id in signals ==> signals[id].createdAt < now - REDRIVE_GRACE_SEC
      modifies this
      ensures Valid() && old(run) <= run && flight == Idle
      ensures forall id :: id in signals ==> signals[id].createdAt < now - REDRIVE_GRACE_SEC
      ensures |StrandedIds(Now())| <= Less(|StrandedIds(old(Now()))|, REDRIVE_BATCH)
    {
      ghost var s := Now();
      assert Overdue(s, now) == StrandedIds(s);
      ghost var batch := Sweep(now);
      Drain(gates);
      StillStranded(s, Now(), batch);
    }

    /** From any reachable state, sweeps past the grace period alternating with crash-free drains
        leave no signal validated and tradeless, in at most ceil(n / batch) rounds. */
    method Recover(now: int, gates: SignalId -> Gate) returns (rounds: nat)
      requires Valid()
      requires forall id :: id in signals ==> signals[id].createdAt < now - REDRIVE_GRACE_SEC
      modifies this
      ensures Valid() && old(run) <= run
      ensures StrandedIds(Now()) == {}
      ensures REDRIVE_BATCH * rounds < |StrandedIds(old(Now()))| + REDRIVE_BATCH
      ensures rounds == 0 <==> StrandedIds(old(Now())) == {}
    {
      Die();
      rounds := 0;
      ghost var n := |StrandedIds(old(Now()))|;
      assert StrandedIds(Now()) == StrandedIds(old(Now()));
      while exists id ::
              id in signals && signals[id].status == Validated && (forall k :: k in trades ==> k.signal != id)
        invariant Valid() && old(run) <= run && flight == Idle
        invariant forall id :: id in signals ==> signals[id].createdAt < now - REDRIVE_GRACE_SEC
        invariant rounds == 0 ==> StrandedIds(Now()) == StrandedIds(old(Now()))
        invariant REDRIVE_BATCH * rounds + |StrandedIds(Now())| <= n
          || (StrandedIds(Now()) == {} && REDRIVE_BATCH * rounds < n + REDRIVE_BATCH)
        decreases |StrandedIds(Now())|
      {
        ghost var lost :| lost in signals && Stranded(Now(), lost);
        assert lost in StrandedIds(Now());
        Round(now, gates);
        rounds := rounds + 1;
      }
      assert forall id :: id in signals ==> !Stranded(Now(), id);
    }
  }

  /** `batch` was put before the queue `was`, each id once. */
  ghost predicate PutBefore(batch: set<SignalId>, queue: seq<SignalId>, was: seq<SignalId>) {
    && |queue| == |was| + |batch| && queue[|batch|..] == was
    && (forall k :: 0 <= k < |batch| ==> queue[k] in batch) && forall id :: id in batch ==> id in queue
  }

  lemma PutOne(batch: set<SignalId>, id: SignalId, queue: seq<SignalId>, was: seq<SignalId>)
    requires id !in batch && PutBefore(batch, queue, was)
    ensures PutBefore(batch + {id}, [id] + queue, was)
  {
    var more := [id] + queue;
    assert |batch + {id}| == |batch| + 1;
    assert more[|batch| + 1..] == queue[|batch|..];
    forall j | j in batch + {id} ensures j in more {
      if j in batch {
        var k :| 0 <= k < |queue| && queue[k] == j;
        assert more[k + 1] == j;
      } else {
        assert more[0] == j;
      }
    }
  }

  /** `n` reduced by up to `step`. */
  function Less(n: nat, step: nat): nat { if n <= step then 0 else n - step }

  /** `limit(REDRIVE_BATCH)`: that many rows of the result, or all of them. */
  ghost predicate IsBatch(batch: set<SignalId>, found: set<SignalId>) {
    batch <= found && |batch| == if |found| < REDRIVE_BATCH then |found| else REDRIVE_BATCH
  }

  method PickBatch(found: set<SignalId>) returns (batch: set<SignalId>)
    ensures IsBatch(batch, found)
  {
    batch := {};
    var left := found;
    while left != {} && |batch| < REDRIVE_BATCH
      invariant batch + left == found && batch !! left && |batch| <= REDRIVE_BATCH
      decreases left
    {
      var id :| id in left;
      left, batch := left - {id}, batch + {id};
    }
    assert left == {} ==> batch == found;
    SubsetSize(batch, found);
  }

  /** The sweep's query. */
  ghost function Overdue(s: State, now: int): set<SignalId> {
    set id | id in s.signals && Stranded(s, id) && s.signals[id].createdAt < now - REDRIVE_GRACE_SEC
  }

  /** What a batch is taken from: the signals of more than a minute's standing that are validated and have no
      trade; fifty of them, or all. */
  lemma SweptAre(s: State, now: int, batch: set<SignalId>, id: SignalId)
    requires IsBatch(batch, Overdue(s, now))
    ensures id in Overdue(s, now)
       <==> id in s.signals && s.signals[id].status == Validated && s.signals[id].createdAt + 60 < now
            && forall key :: key in s.trades ==> key.signal != id
    ensures id in batch ==> id in Overdue(s, now)
    ensures |batch| == 50 || (|batch| < 50 && batch == Overdue(s, now))
  {
    SubsetSize(batch, Overdue(s, now));
    if |batch| < 50 {
      assert |Overdue(s, now) - batch| == 0;
    }
  }

  lemma SubsetSize<T>(a: set<T>, b: set<T>)
    requires a <= b
    ensures |a| <= |b|
    ensures |b - a| == |b| - |a|
  {}

  /** A round un-strands its whole batch and strands nothing new. */
  lemma StillStranded(s: State, t: State, batch: set<SignalId>)
    requires batch <= StrandedIds(s)
    requires t.signals.Keys == s.signals.Keys && s.trades <= t.trades
    requires forall j :: j in t.signals && s.signals[j].status != Validated ==> t.signals[j].status != Validated
    requires forall j :: j in batch ==> t.signals[j].status != Validated
    ensures |StrandedIds(t)| <= |StrandedIds(s)| - |batch|
  {
    forall id | id in StrandedIds(t) ensures id in StrandedIds(s) - batch {
      forall k | k in s.trades ensures k.signal != id {
        assert s.trades[k] <= t.trades[k];
      }
    }
    SubsetSize(batch, StrandedIds(s));
    SubsetSize(StrandedIds(t), StrandedIds(s) - batch);
  }
}
