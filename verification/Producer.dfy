/**
 The engine producer: repeated passes over the newest closed bars of a series, each pass seeding
 its caps from the ledger and re-judging bars an earlier pass already ruled on.
 Times are minutes; a bar is identified by its close.
 */
module Producer {
  import opened Wrappers

  /** What the pure part of the evaluation makes of one bar. Geometry is built after the caps. */
  datatype Call = Silent(why: string) | BadGeometry | Fires(plan: int)

  datatype Bar = Bar(at: int, call: Call)

  /** A cap of 0 is switched off. */
  datatype Spec = Spec(tfMinutes: nat, cooldownBars: nat, maxPerDay: nat)

  /** One shadow signal, stamped with its bar's close. */
  datatype Row = Row(at: int, plan: int)

  function Day(t: int): int { t / 1440 }

  // ---- the reference: one pass, in order, over bars seen once -----------------------------

  function CountOn(ledger: seq<Row>, day: int): nat {
    if ledger == [] then 0
    else CountOn(ledger[..|ledger| - 1], day) + (if Day(ledger[|ledger| - 1].at) == day then 1 else 0)
  }

  /** The caps as a rule about history: this day's signals so far, and the latest signal. */
  predicate Allowed(spec: Spec, ledger: seq<Row>, at: int) {
    && (spec.maxPerDay > 0 ==> CountOn(ledger, Day(at)) < spec.maxPerDay)
    && (spec.cooldownBars > 0 && ledger != []
        ==> at - ledger[|ledger| - 1].at >= spec.cooldownBars * spec.tfMinutes)
  }

  function Judge(spec: Spec, ledger: seq<Row>, bar: Bar): seq<Row> {
    if bar.call.Fires? && Allowed(spec, ledger, bar.at) then ledger + [Row(bar.at, bar.call.plan)] else ledger
  }

  /** The sequential pass over the first `n` bars. */
  function FoldTo(spec: Spec, bars: seq<Bar>, n: nat): seq<Row>
    requires n <= |bars|
    decreases n
  {
    if n == 0 then [] else Judge(spec, FoldTo(spec, bars, n - 1), bars[n - 1])
  }

  function Fold(spec: Spec, bars: seq<Bar>): seq<Row> { FoldTo(spec, bars, |bars|) }

  // ---- the code: queries over the ledger, seeded once per pass ----------------------------

  /** Newest `signal_at` of the source. */
  function Newest(ledger: seq<Row>): Option<int> {
    if ledger == [] then None
    else
      var rest := Newest(ledger[..|ledger| - 1]);
      var at := ledger[|ledger| - 1].at;
      if rest.Some? && rest.value > at then rest else Some(at)
  }

  /** Signals at or after `from`; the query has no upper end. */
  function CountSince(ledger: seq<Row>, from: int): nat {
    if ledger == [] then 0
    else CountSince(ledger[..|ledger| - 1], from) + (if ledger[|ledger| - 1].at >= from then 1 else 0)
  }

  predicate AlreadyEmitted(ledger: seq<Row>, at: int) {
    exists k :: 0 <= k < |ledger| && ledger[k].at == at
  }

  function Suppressed(spec: Spec, at: int, last: Option<int>, today: nat): Option<string> {
    if spec.maxPerDay > 0 && today >= spec.maxPerDay then Some("n_suppressed_max_per_day")
    else if spec.cooldownBars > 0 && last.Some? && at - last.value < spec.cooldownBars * spec.tfMinutes
    then Some("n_suppressed_cooldown")
    else None
  }

  function Evaluate(spec: Spec, bar: Bar, last: Option<int>, today: nat): (reason: Option<string>) {
    match bar.call
    case Silent(why) => Some(why)
    case _ =>
      var capped := Suppressed(spec, bar.at, last, today);
      if capped.Some? then capped
      else if bar.call.BadGeometry? then Some("dropped_geometry")
      else None
  }

  /** A pass in progress: the ledger and the two caches it carries. */
  datatype Pass = Pass(rows: seq<Row>, last: Option<int>, perDay: map<int, nat>)

  function Start(ledger: seq<Row>): Pass { Pass(ledger, Newest(ledger), map[]) }

  function Seeded(p: Pass, day: int): map<int, nat> {
    if day in p.perDay then p.perDay else p.perDay[day := CountSince(p.rows, 1440 * day)]
  }

  function Visit(spec: Spec, p: Pass, bar: Bar): Pass {
    var day := Day(bar.at);
    var perDay := Seeded(p, day);
    if AlreadyEmitted(p.rows, bar.at) then p.(perDay := perDay)
    else if Evaluate(spec, bar, p.last, perDay[day]).Some? then p.(perDay := perDay)
    else Pass(p.rows + [Row(bar.at, if bar.call.Fires? then bar.call.plan else 0)],
              Some(bar.at), perDay[day := perDay[day] + 1])
  }

  /** A pass over bars[lo..hi]. */
  function Visits(spec: Spec, ledger: seq<Row>, bars: seq<Bar>, lo: nat, hi: nat): Pass
    requires lo <= hi <= |bars|
    decreases hi
  {
    if lo == hi then Start(ledger) else Visit(spec, Visits(spec, ledger, bars, lo, hi - 1), bars[hi - 1])
  }

  predicate Ordered(bars: seq<Bar>) {
    forall i, j :: 0 <= i < j < |bars| ==> bars[i].at < bars[j].at
  }

  // ---- one pass refines the reference ------------------------------------------------------

  ghost predicate FromBars(bars: seq<Bar>, n: nat, at: int) {
    exists i :: 0 <= i < n && i < |bars| && bars[i].at == at
  }

  lemma {:induction false} FoldRow(spec: Spec, bars: seq<Bar>, n: nat, k: nat)
    requires n <= |bars| && k < |FoldTo(spec, bars, n)|
    ensures FromBars(bars, n, FoldTo(spec, bars, n)[k].at)
    decreases n
  {
    if k < |FoldTo(spec, bars, n - 1)| {
      FoldRow(spec, bars, n - 1, k);
    } else {
      assert bars[n - 1].at == FoldTo(spec, bars, n)[k].at;
    }
  }

  lemma {:induction false} FoldOrdered(spec: Spec, bars: seq<Bar>, n: nat, j: nat, k: nat)
    requires Ordered(bars) && n <= |bars| && j < k < |FoldTo(spec, bars, n)|
    ensures FoldTo(spec, bars, n)[j].at < FoldTo(spec, bars, n)[k].at
    decreases n
  {
    if k < |FoldTo(spec, bars, n - 1)| {
      FoldOrdered(spec, bars, n - 1, j, k);
    } else {
      FoldRow(spec, bars, n - 1, j);
    }
  }

  lemma {:induction false} NewestIsLast(l: seq<Row>)
    requires forall j, k :: 0 <= j < k < |l| ==> l[j].at < l[k].at
    ensures Newest(l) == if l == [] then None else Some(l[|l| - 1].at)
    decreases |l|
  {
    if |l| > 1 {
      NewestIsLast(l[..|l| - 1]);
    }
  }

  /** Rows of the reference come from its bars, in order, and the newest is the last. */
  lemma FoldRows(spec: Spec, bars: seq<Bar>, n: nat)
    requires Ordered(bars) && n <= |bars|
    ensures var l := FoldTo(spec, bars, n);
            && (forall k :: 0 <= k < |l| ==> FromBars(bars, n, l[k].at))
            && Newest(l) == (if l == [] then None else Some(l[|l| - 1].at))
  {
    var l := FoldTo(spec, bars, n);
    forall k | 0 <= k < |l| ensures FromBars(bars, n, l[k].at) {
      FoldRow(spec, bars, n, k);
    }
    forall j, k | 0 <= j < k < |l| ensures l[j].at < l[k].at {
      FoldOrdered(spec, bars, n, j, k);
    }
    NewestIsLast(l);
  }

  lemma {:induction false} FoldPrefix(spec: Spec, bars: seq<Bar>, i: nat, n: nat)
    requires i <= n <= |bars|
    ensures FoldTo(spec, bars, i) <= FoldTo(spec, bars, n)
    decreases n
  {
    if i < n {
      FoldPrefix(spec, bars, i, n - 1);
    }
  }

  lemma {:induction false} CountsGrow(a: seq<Row>, b: seq<Row>, day: int)
    requires a <= b
    ensures CountOn(a, day) <= CountSince(b, 1440 * day)
    decreases |b|
  {
    if a == b {
      if b != [] {
        CountsGrow(a[..|a| - 1], a[..|a| - 1], day);
      }
    } else {
      CountsGrow(a, b[..|b| - 1], day);
    }
  }

  /** With no later day in the ledger, the open-ended count is the day's count. */
  lemma {:induction false} CountIsToday(l: seq<Row>, day: int)
    requires forall k :: 0 <= k < |l| ==> Day(l[k].at) <= day
    ensures CountSince(l, 1440 * day) == CountOn(l, day)
    decreases |l|
  {
    if l != [] {
      CountIsToday(l[..|l| - 1], day);
    }
  }

  lemma {:induction false} NewestBounds(l: seq<Row>, k: nat)
    requires k < |l|
    ensures Newest(l).Some? && l[k].at <= Newest(l).value
    decreases |l|
  {
    if k < |l| - 1 {
      NewestBounds(l[..|l| - 1], k);
    }
  }

  /** A bar an earlier pass ruled on never emits again, however many signals came after it. */
  lemma Rejudged(spec: Spec, bars: seq<Bar>, n: nat, i: nat)
    requires Ordered(bars) && i < n <= |bars| && bars[i].call.Fires?
    ensures var l := FoldTo(spec, bars, n);
            AlreadyEmitted(l, bars[i].at)
            || Suppressed(spec, bars[i].at, Newest(l), CountSince(l, 1440 * Day(bars[i].at))).Some?
  {
    var l := FoldTo(spec, bars, n);
    var before := FoldTo(spec, bars, i);
    FoldPrefix(spec, bars, i, n);
    FoldPrefix(spec, bars, i + 1, n);
    if Allowed(spec, before, bars[i].at) {
      assert l[|before|].at == bars[i].at;
    } else if spec.maxPerDay > 0 && CountOn(before, Day(bars[i].at)) >= spec.maxPerDay {
      CountsGrow(before, l, Day(bars[i].at));
    } else {
      NewestBounds(l, |before| - 1);
    }
  }

  function Reach(a: nat, b: nat): nat { if a >= b then a else b }

  /** The caches of a pass agree with its ledger, and the day cache knows no day after `day`. */
  ghost predicate Synced(p: Pass, day: int) {
    && p.last == Newest(p.rows)
    && day in p.perDay && p.perDay[day] == CountSince(p.rows, 1440 * day)
    && forall d :: d in p.perDay ==> d <= day
  }

  /** Before a bar: nothing cached yet, or synced on a day not after the bar's. */
  ghost predicate Ready(p: Pass, at: int) {
    && p.last == Newest(p.rows)
    && (p.perDay == map[] || exists day :: day <= Day(at) && Synced(p, day))
  }

  lemma SeedSyncs(p: Pass, at: int)
    requires Ready(p, at)
    ensures Synced(p.(perDay := Seeded(p, Day(at))), Day(at))
  {}

  /** Re-judging a ruled bar changes nothing but the day cache. */
  lemma VisitOld(spec: Spec, bars: seq<Bar>, n: nat, i: nat, p: Pass)
    requires Ordered(bars) && i < n <= |bars|
    requires p.rows == FoldTo(spec, bars, n) && Ready(p, bars[i].at)
    ensures Visit(spec, p, bars[i]) == p.(perDay := Seeded(p, Day(bars[i].at)))
  {
    SeedSyncs(p, bars[i].at);
    if bars[i].call.Fires? {
      Rejudged(spec, bars, n, i);
    }
  }

  predicate Later(bars: seq<Bar>, n: nat, at: int) { n > 0 && n <= |bars| ==> bars[n - 1].at < at }

  lemma NoneLater(spec: Spec, bars: seq<Bar>, n: nat, at: int)
    requires Ordered(bars) && n <= |bars| && Later(bars, n, at)
    ensures forall k :: 0 <= k < |FoldTo(spec, bars, n)| ==> FoldTo(spec, bars, n)[k].at < at
  {
    FoldRows(spec, bars, n);
    forall k | 0 <= k < |FoldTo(spec, bars, n)| ensures FoldTo(spec, bars, n)[k].at < at {
      assert FromBars(bars, n, FoldTo(spec, bars, n)[k].at);
    }
  }

  /** Seen from a later bar, the seeded caps are the reference's caps. */
  lemma CapsAgree(spec: Spec, bars: seq<Bar>, n: nat, at: int)
    requires Ordered(bars) && n <= |bars| && Later(bars, n, at)
    ensures var l := FoldTo(spec, bars, n);
            Suppressed(spec, at, Newest(l), CountSince(l, 1440 * Day(at))).None? <==> Allowed(spec, l, at)
  {
    FoldRows(spec, bars, n);
    NoneLater(spec, bars, n, at);
    CountIsToday(FoldTo(spec, bars, n), Day(at));
  }

  lemma AppendRow(l: seq<Row>, row: Row)
    requires forall k :: 0 <= k < |l| ==> l[k].at < row.at
    ensures CountSince(l + [row], 1440 * Day(row.at)) == CountSince(l, 1440 * Day(row.at)) + 1
    ensures Newest(l + [row]) == Some(row.at)
  {
    var m := l + [row];
    assert m[..|m| - 1] == l;
    if l != [] {
      NewestIsMember(l);
    }
  }

  lemma {:induction false} NewestIsMember(l: seq<Row>)
    requires l != []
    ensures exists k :: 0 <= k < |l| && Newest(l) == Some(l[k].at)
    decreases |l|
  {
    var init := l[..|l| - 1];
    if init != [] {
      NewestIsMember(init);
      var k :| 0 <= k < |init| && Newest(init) == Some(init[k].at);
      assert init[k] == l[k];
    }
    assert Newest(l) == Some(l[|l| - 1].at) || Newest(l) == Newest(init);
  }

  /** A bar that is not allowed, or does not fire, leaves the ledger alone. */
  lemma VisitPasses(spec: Spec, p: Pass, bar: Bar)
    requires Ready(p, bar.at) && !AlreadyEmitted(p.rows, bar.at)
    requires !bar.call.Fires?
          || Suppressed(spec, bar.at, p.last, CountSince(p.rows, 1440 * Day(bar.at))).Some?
    ensures Visit(spec, p, bar) == p.(perDay := Seeded(p, Day(bar.at)))
  {
    SeedSyncs(p, bar.at);
  }

  /** A bar that fires and is not suppressed adds its row, and the caches count it. */
  lemma VisitEmits(spec: Spec, p: Pass, bar: Bar)
    requires Ready(p, bar.at) && (forall k :: 0 <= k < |p.rows| ==> p.rows[k].at < bar.at)
    requires bar.call.Fires?
    requires Suppressed(spec, bar.at, p.last, CountSince(p.rows, 1440 * Day(bar.at))).None?
    ensures Visit(spec, p, bar).rows == p.rows + [Row(bar.at, bar.call.plan)]
    ensures Synced(Visit(spec, p, bar), Day(bar.at))
  {
    SeedSyncs(p, bar.at);
    AppendRow(p.rows, Row(bar.at, bar.call.plan));
  }

  /** When the seeded caps agree with the reference's, so does the visit. */
  lemma VisitJudges(spec: Spec, p: Pass, bar: Bar)
    requires Ready(p, bar.at) && (forall k :: 0 <= k < |p.rows| ==> p.rows[k].at < bar.at)
    requires Suppressed(spec, bar.at, p.last, CountSince(p.rows, 1440 * Day(bar.at))).None?
        <==> Allowed(spec, p.rows, bar.at)
    ensures Visit(spec, p, bar).rows == Judge(spec, p.rows, bar)
    ensures Synced(Visit(spec, p, bar), Day(bar.at))
  {
    if bar.call.Fires? && Allowed(spec, p.rows, bar.at) {
      VisitEmits(spec, p, bar);
    } else {
      VisitPasses(spec, p, bar);
      SeedSyncs(p, bar.at);
    }
  }

  /** A bar later than everything ruled gets the reference's verdict, and the caches follow. */
  lemma VisitNew(spec: Spec, bars: seq<Bar>, n: nat, bar: Bar, p: Pass)
    requires Ordered(bars) && n <= |bars| && Later(bars, n, bar.at)
    requires p.rows == FoldTo(spec, bars, n) && Ready(p, bar.at)
    ensures Visit(spec, p, bar).rows == Judge(spec, p.rows, bar)
    ensures Synced(Visit(spec, p, bar), Day(bar.at))
  {
    CapsAgree(spec, bars, n, bar.at);
    NoneLater(spec, bars, n, bar.at);
    VisitJudges(spec, p, bar);
  }

  /** What holds after each bar of a pass that starts at `lo` when `ruled` bars are already judged. */
  ghost predicate InStep(spec: Spec, bars: seq<Bar>, ruled: nat, lo: nat, i: nat, p: Pass)
    requires ruled <= |bars| && lo <= i <= |bars|
  {
    && p.rows == FoldTo(spec, bars, Reach(ruled, i))
    && p.last == Newest(p.rows)
    && (if i == lo then p.perDay == map[] else Synced(p, Day(bars[i - 1].at)))
  }

  lemma VisitStep(spec: Spec, bars: seq<Bar>, ruled: nat, lo: nat, i: nat, p: Pass)
    requires Ordered(bars) && lo <= ruled <= |bars| && lo <= i < |bars|
    requires InStep(spec, bars, ruled, lo, i, p)
    ensures InStep(spec, bars, ruled, lo, i + 1, Visit(spec, p, bars[i]))
  {
    assert Ready(p, bars[i].at) by {
      if i > lo {
        assert bars[i - 1].at < bars[i].at;
        assert Day(bars[i - 1].at) <= Day(bars[i].at);
      }
    }
    if i < ruled {
      VisitOld(spec, bars, ruled, i, p);
      SeedSyncs(p, bars[i].at);
    } else {
      VisitNew(spec, bars, i, bars[i], p);
    }
  }

  lemma {:induction false} WindowStep(spec: Spec, bars: seq<Bar>, ruled: nat, lo: nat, hi: nat)
    requires Ordered(bars) && lo <= ruled <= |bars| && lo <= hi <= |bars|
    ensures InStep(spec, bars, ruled, lo, hi, Visits(spec, FoldTo(spec, bars, ruled), bars, lo, hi))
    decreases hi
  {
    if lo < hi {
      WindowStep(spec, bars, ruled, lo, hi - 1);
      VisitStep(spec, bars, ruled, lo, hi - 1, Visits(spec, FoldTo(spec, bars, ruled), bars, lo, hi - 1));
    }
  }

  /** A pass over any window that starts at or before the frontier extends the reference fold. */
  lemma PassExtendsFold(spec: Spec, bars: seq<Bar>, ruled: nat, lo: nat, hi: nat)
    requires Ordered(bars) && lo <= ruled <= |bars| && lo <= hi <= |bars|
    ensures Visits(spec, FoldTo(spec, bars, ruled), bars, lo, hi).rows == FoldTo(spec, bars, Reach(ruled, hi))
  {
    WindowStep(spec, bars, ruled, lo, hi);
  }

  // ---- schedules -----------------------------------------------------------------------------

  /** One run of the producer: `closed` bars are closed and loaded, `done` of its window are ruled
      before it ends or dies, and a dry run writes nothing. */
  datatype Wake = Wake(closed: nat, done: nat, dry: bool)

  /** The newest `limit` bars; 0 means all of them. */
  function WindowStart(closed: nat, limit: nat): nat {
    if limit == 0 || closed <= limit then 0 else closed - limit
  }

  function WakeEnd(w: Wake, limit: nat): nat {
    var lo := WindowStart(w.closed, limit);
    if w.done <= w.closed - lo then lo + w.done else w.closed
  }

  function RunWake(spec: Spec, bars: seq<Bar>, limit: nat, ledger: seq<Row>, w: Wake): seq<Row>
    requires w.closed <= |bars|
  {
    if w.dry then ledger
    else Visits(spec, ledger, bars, WindowStart(w.closed, limit), WakeEnd(w, limit)).rows
  }

  predicate Fits(bars: seq<Bar>, wakes: seq<Wake>) {
    forall k :: 0 <= k < |wakes| ==> wakes[k].closed <= |bars|
  }

  function RunAll(spec: Spec, bars: seq<Bar>, limit: nat, wakes: seq<Wake>): seq<Row>
    requires Fits(bars, wakes)
  {
    if wakes == [] then []
    else
      var init := wakes[..|wakes| - 1];
      RunWake(spec, bars, limit, RunAll(spec, bars, limit, init), wakes[|wakes| - 1])
  }

  /** How far the bars are ruled. */
  function Frontier(limit: nat, wakes: seq<Wake>): nat {
    if wakes == [] then 0
    else
      var f := Frontier(limit, wakes[..|wakes| - 1]);
      var w := wakes[|wakes| - 1];
      if w.dry then f else Reach(f, WakeEnd(w, limit))
  }

  /** No run starts past the frontier the runs before it left. */
  predicate NoGap(limit: nat, wakes: seq<Wake>) {
    forall k :: 0 <= k < |wakes| && !wakes[k].dry
      ==> WindowStart(wakes[k].closed, limit) <= Frontier(limit, wakes[..k])
  }

  lemma {:induction false} FrontierBound(bars: seq<Bar>, limit: nat, wakes: seq<Wake>)
    requires Fits(bars, wakes)
    ensures Frontier(limit, wakes) <= |bars|
    decreases |wakes|
  {
    if wakes != [] {
      FrontierBound(bars, limit, wakes[..|wakes| - 1]);
    }
  }

  /** Cadence independence: overlapping, interrupted and dry runs in any order leave the ledger of
      one sequential pass over every bar up to the frontier. */
  lemma {:induction false} CadenceIndependent(spec: Spec, bars: seq<Bar>, limit: nat, wakes: seq<Wake>)
    requires Ordered(bars) && Fits(bars, wakes) && NoGap(limit, wakes)
    ensures Frontier(limit, wakes) <= |bars|
    ensures RunAll(spec, bars, limit, wakes) == FoldTo(spec, bars, Frontier(limit, wakes))
    decreases |wakes|
  {
    FrontierBound(bars, limit, wakes);
    if wakes != [] {
      var init, w := wakes[..|wakes| - 1], wakes[|wakes| - 1];
      NoGapStep(limit, wakes);
      CadenceIndependent(spec, bars, limit, init);
      if !w.dry {
        PassExtendsFold(spec, bars, Frontier(limit, init), WindowStart(w.closed, limit), WakeEnd(w, limit));
      }
    }
  }

  lemma NoGapStep(limit: nat, wakes: seq<Wake>)
    requires wakes != []
    ensures var init, w := wakes[..|wakes| - 1], wakes[|wakes| - 1];
            NoGap(limit, wakes)
            <==> NoGap(limit, init) && (w.dry || WindowStart(w.closed, limit) <= Frontier(limit, init))
  {
    var n := |wakes| - 1;
    forall k | 0 <= k < n ensures wakes[..n][..k] == wakes[..k] && wakes[..n][k] == wakes[k] {}
  }

  // ---- without the gap condition ---------------------------------------------------------------

  /** What run `w` judges for the first time, when bars up to `f` are ruled. */
  function NewlyJudged(bars: seq<Bar>, limit: nat, f: nat, w: Wake): seq<Bar>
    requires w.closed <= |bars|
  {
    var from := Reach(f, WindowStart(w.closed, limit));
    if w.dry || WakeEnd(w, limit) <= from then [] else bars[from..WakeEnd(w, limit)]
  }

  /** The bars a schedule judges for the first time, in order. */
  function Judged(bars: seq<Bar>, limit: nat, wakes: seq<Wake>): seq<Bar>
    requires Fits(bars, wakes)
  {
    if wakes == [] then []
    else
      var init := wakes[..|wakes| - 1];
      Judged(bars, limit, init) + NewlyJudged(bars, limit, Frontier(limit, init), wakes[|wakes| - 1])
  }

  /** Time passes: later runs see at least as many closed bars. */
  predicate Forward(wakes: seq<Wake>) {
    forall j, k :: 0 <= j <= k < |wakes| ==> wakes[j].closed <= wakes[k].closed
  }

  /** `n` bars of `a` from `lo` are those of `b` from `base`. */
  predicate Shifted(a: seq<Bar>, lo: nat, b: seq<Bar>, base: nat, n: nat) {
    lo + n <= |a| && base + n <= |b| && forall k :: lo <= k < lo + n ==> a[k] == b[base + (k - lo)]
  }

  /** What a schedule leaves behind: `judged` in order, all before the frontier `f`, and ending in
      every bar from the last window's start up to `f`. */
  ghost predicate Tail(bars: seq<Bar>, judged: seq<Bar>, f: nat, from: nat) {
    && f <= |bars| && Ordered(judged) && (f == 0 ==> judged == [])
    && (forall k :: 0 <= k < |judged| && f > 0 ==> judged[k].at <= bars[f - 1].at)
    && (from <= f ==> f - from <= |judged| && Shifted(bars, from, judged, |judged| - (f - from), f - from))
  }

  lemma ExtendedInOrder(bars: seq<Bar>, judged: seq<Bar>, f: nat, start: nat, end: nat)
    requires Ordered(bars) && Ordered(judged) && f <= start < end <= |bars|
    requires f == 0 ==> judged == []
    requires forall k :: 0 <= k < |judged| && f > 0 ==> judged[k].at <= bars[f - 1].at
    ensures var j := judged + bars[start..end];
            Ordered(j) && forall k :: 0 <= k < |j| ==> j[k].at <= bars[end - 1].at
  {
    var j, n := judged + bars[start..end], |judged|;
    forall k | 0 <= k < |j| ensures j[k].at <= bars[end - 1].at && (k >= n ==> j[k] == bars[start + (k - n)]) {}
    forall a, b | 0 <= a < b < |j| ensures j[a].at < j[b].at {
      if b < n {
        assert j[a] == judged[a] && j[b] == judged[b];
      } else if a < n {
        assert j[a].at <= bars[f - 1].at < bars[start + (b - n)].at;
      }
    }
  }

  /** Judging bars[start..end] next, where `start` is the later of the frontier and the window. */
  lemma TailExtends(bars: seq<Bar>, judged: seq<Bar>, f: nat, lo: nat, end: nat)
    requires Ordered(bars) && Tail(bars, judged, f, lo) && Reach(f, lo) < end <= |bars|
    ensures Tail(bars, judged + bars[Reach(f, lo)..end], end, lo)
  {
    var start := Reach(f, lo);
    var j := judged + bars[start..end];
    ExtendedInOrder(bars, judged, f, start, end);
    var base := |j| - (end - lo);
    forall k | lo <= k < end ensures bars[k] == j[base + (k - lo)] {
      if k < start {
        assert bars[k] == judged[|judged| - (f - lo) + (k - lo)];
      } else {
        assert j[|judged| + (k - start)] == bars[start..end][k - start];
      }
    }
    assert Shifted(bars, lo, j, base, end - lo);
  }

  /** The frontier may move up to the window's start with nothing judged. */
  lemma TailRises(bars: seq<Bar>, judged: seq<Bar>, f: nat, lo: nat, end: nat)
    requires Ordered(bars) && Tail(bars, judged, f, lo) && f < end <= lo && end <= |bars|
    ensures Tail(bars, judged, end, lo)
  {
    forall k | 0 <= k < |judged| ensures judged[k].at <= bars[end - 1].at {
      assert f > 0 ==> bars[f - 1].at <= bars[end - 1].at;
    }
  }

  lemma TailShrinks(bars: seq<Bar>, judged: seq<Bar>, f: nat, lo: nat, from: nat)
    requires Tail(bars, judged, f, lo) && lo <= from
    ensures Tail(bars, judged, f, from)
  {
    if from <= f {
      forall k | from <= k < f ensures bars[k] == judged[|judged| - (f - from) + (k - from)] {
        assert bars[k] == judged[|judged| - (f - lo) + (k - lo)];
      }
    }
  }

  lemma {:induction false} JudgedTail(bars: seq<Bar>, limit: nat, wakes: seq<Wake>, from: nat)
    requires Ordered(bars) && Fits(bars, wakes) && Forward(wakes)
    requires forall k :: 0 <= k < |wakes| ==> WindowStart(wakes[k].closed, limit) <= from
    ensures Tail(bars, Judged(bars, limit, wakes), Frontier(limit, wakes), from)
    decreases |wakes|
  {
    if wakes != [] {
      var init, w := wakes[..|wakes| - 1], wakes[|wakes| - 1];
      assert forall k :: 0 <= k < |init| ==> init[k].closed <= w.closed;
      JudgedTail(bars, limit, init, WindowStart(w.closed, limit));
      WakeTail(bars, limit, Judged(bars, limit, init), Frontier(limit, init), w);
      TailShrinks(bars, Judged(bars, limit, wakes), Frontier(limit, wakes), WindowStart(w.closed, limit), from);
    }
  }

  lemma WakeTail(bars: seq<Bar>, limit: nat, judged: seq<Bar>, f: nat, w: Wake)
    requires Ordered(bars) && w.closed <= |bars| && Tail(bars, judged, f, WindowStart(w.closed, limit))
    ensures Tail(bars, judged + NewlyJudged(bars, limit, f, w), if w.dry then f else Reach(f, WakeEnd(w, limit)),
                 WindowStart(w.closed, limit))
  {
    var lo, end := WindowStart(w.closed, limit), WakeEnd(w, limit);
    if !w.dry && end > Reach(f, lo) {
      TailExtends(bars, judged, f, lo, end);
    } else {
      assert NewlyJudged(bars, limit, f, w) == [] && judged + [] == judged;
      if !w.dry && f < end {
        TailRises(bars, judged, f, lo, end);
      }
    }
  }

  /** A pass sees nothing but its window. */
  lemma {:induction false} SameWindow(spec: Spec, ledger: seq<Row>, a: seq<Bar>, lo: nat, hi: nat,
                                      b: seq<Bar>, base: nat, top: nat)
    requires lo <= hi && base <= top && hi - lo == top - base && Shifted(a, lo, b, base, hi - lo)
    ensures Visits(spec, ledger, a, lo, hi) == Visits(spec, ledger, b, base, top)
    decreases hi
  {
    if lo < hi {
      SameWindow(spec, ledger, a, lo, hi - 1, b, base, top - 1);
      assert a[hi - 1] == b[top - 1];
    }
  }

  /** The fold of a prefix does not see what follows it. */
  lemma {:induction false} FoldOfPrefix(spec: Spec, a: seq<Bar>, b: seq<Bar>, n: nat)
    requires n <= |a| && n <= |b| && forall k :: 0 <= k < n ==> a[k] == b[k]
    ensures FoldTo(spec, a, n) == FoldTo(spec, b, n)
    decreases n
  {
    if n > 0 {
      FoldOfPrefix(spec, a, b, n - 1);
    }
  }

  /** A window that ends among judged bars changes nothing. */
  lemma OldWindow(spec: Spec, bars: seq<Bar>, judged: seq<Bar>, f: nat, lo: nat, end: nat)
    requires Ordered(bars) && Tail(bars, judged, f, lo) && lo <= end <= |bars| && end <= Reach(f, lo)
    ensures Visits(spec, Fold(spec, judged), bars, lo, end).rows == Fold(spec, judged)
  {
    if lo < end {
      var base, top := |judged| - (f - lo), |judged| - (f - end);
      assert Shifted(bars, lo, judged, base, end - lo);
      SameWindow(spec, Fold(spec, judged), bars, lo, end, judged, base, top);
      PassExtendsFold(spec, judged, |judged|, base, top);
    }
  }

  /** A window that reaches past them extends the fold of what was judged. */
  lemma NewWindow(spec: Spec, bars: seq<Bar>, judged: seq<Bar>, f: nat, lo: nat, end: nat)
    requires Ordered(bars) && Tail(bars, judged, f, lo) && Reach(f, lo) < end <= |bars|
    ensures Visits(spec, Fold(spec, judged), bars, lo, end).rows == Fold(spec, judged + bars[Reach(f, lo)..end])
  {
    var j := judged + bars[Reach(f, lo)..end];
    var base, top := |j| - (end - lo), |j|;
    TailExtends(bars, judged, f, lo, end);
    FoldOfPrefix(spec, judged, j, |judged|);
    SameWindow(spec, Fold(spec, judged), bars, lo, end, j, base, top);
    PassExtendsFold(spec, j, |judged|, base, top);
  }

  lemma WakeFolds(spec: Spec, bars: seq<Bar>, limit: nat, judged: seq<Bar>, f: nat, w: Wake)
    requires Ordered(bars) && w.closed <= |bars| && Tail(bars, judged, f, WindowStart(w.closed, limit))
    ensures RunWake(spec, bars, limit, Fold(spec, judged), w) == Fold(spec, judged + NewlyJudged(bars, limit, f, w))
  {
    var lo, end := WindowStart(w.closed, limit), WakeEnd(w, limit);
    if w.dry || end <= Reach(f, lo) {
      assert judged + [] == judged;
      if !w.dry { OldWindow(spec, bars, judged, f, lo, end); }
    } else {
      NewWindow(spec, bars, judged, f, lo, end);
    }
  }

  /** Whatever the gaps, the ledger is the sequential fold of exactly the bars that were judged:
      a bar every window missed is lost, and nothing else changes. */
  lemma {:induction false} LedgerFoldsJudged(spec: Spec, bars: seq<Bar>, limit: nat, wakes: seq<Wake>)
    requires Ordered(bars) && Fits(bars, wakes) && Forward(wakes)
    ensures RunAll(spec, bars, limit, wakes) == Fold(spec, Judged(bars, limit, wakes))
    decreases |wakes|
  {
    if wakes != [] {
      var init, w := wakes[..|wakes| - 1], wakes[|wakes| - 1];
      LedgerFoldsJudged(spec, bars, limit, init);
      assert forall k :: 0 <= k < |init| ==> init[k].closed <= w.closed;
      JudgedTail(bars, limit, init, WindowStart(w.closed, limit));
      WakeFolds(spec, bars, limit, Judged(bars, limit, init), Frontier(limit, init), w);
    }
  }

  // ---- the gap condition is exact ----------------------------------------------------------------

  /** Every gap leaves the frontier ahead of the number of bars judged. */
  lemma {:induction false} GapsCount(bars: seq<Bar>, limit: nat, wakes: seq<Wake>)
    requires Fits(bars, wakes)
    ensures |Judged(bars, limit, wakes)| <= Frontier(limit, wakes)
    ensures |Judged(bars, limit, wakes)| == Frontier(limit, wakes) <==> NoGap(limit, wakes)
    decreases |wakes|
  {
    if wakes != [] {
      GapsCount(bars, limit, wakes[..|wakes| - 1]);
      NoGapStep(limit, wakes);
    }
  }

  /** `judged` are the bars at the indices `ix`, in order and before `f`. */
  ghost predicate PickedAt(bars: seq<Bar>, judged: seq<Bar>, ix: seq<nat>, f: nat) {
    && |ix| == |judged| && f <= |bars|
    && (forall k :: 0 <= k < |ix| ==> ix[k] < f && judged[k] == bars[ix[k]])
    && (forall j, k :: 0 <= j < k < |ix| ==> ix[j] < ix[k])
  }

  /** Judging bars[from..end] too. */
  lemma PicksMore(bars: seq<Bar>, judged: seq<Bar>, ix: seq<nat>, f: nat, from: nat, end: nat) returns (more: seq<nat>)
    requires PickedAt(bars, judged, ix, f) && f <= from <= end <= |bars|
    ensures PickedAt(bars, judged + bars[from..end], more, end)
  {
    var n, late := |ix|, seq(end - from, k requires 0 <= k => from + k);
    more := ix + late;
    var all := judged + bars[from..end];
    forall k | 0 <= k < |more|
      ensures more[k] < end && all[k] == bars[more[k]] && (k >= n ==> more[k] == from + (k - n))
    {
      if k < n {
        assert more[k] == ix[k] && all[k] == judged[k];
      } else {
        assert more[k] == late[k - n] && all[k] == bars[from..end][k - n];
      }
    }
    forall j, k | 0 <= j < k < |more| ensures more[j] < more[k] {
      if k < n {
        assert more[j] == ix[j] && more[k] == ix[k];
      } else if j < n {
        assert more[j] == ix[j];
      }
    }
  }

  lemma {:induction false} JudgedPicks(bars: seq<Bar>, limit: nat, wakes: seq<Wake>) returns (ix: seq<nat>)
    requires Fits(bars, wakes)
    ensures PickedAt(bars, Judged(bars, limit, wakes), ix, Frontier(limit, wakes))
    decreases |wakes|
  {
    ix := [];
    if wakes != [] {
      var init, w := wakes[..|wakes| - 1], wakes[|wakes| - 1];
      ix := JudgedPicks(bars, limit, init);
      var f := Frontier(limit, init);
      var from, end := Reach(f, WindowStart(w.closed, limit)), WakeEnd(w, limit);
      if !w.dry && from < end {
        ix := PicksMore(bars, Judged(bars, limit, init), ix, f, from, end);
      } else {
        assert NewlyJudged(bars, limit, f, w) == [] && Judged(bars, limit, wakes) == Judged(bars, limit, init) + [];
      }
    }
  }

  /** Every row is stamped at one of these bars. */
  ghost predicate StampedAt(rows: seq<Row>, judged: seq<Bar>) {
    forall k :: 0 <= k < |rows| ==> FromBars(judged, |judged|, rows[k].at)
  }

  lemma {:induction false} FoldFits(spec: Spec, bars: seq<Bar>, n: nat)
    requires n <= |bars|
    ensures |FoldTo(spec, bars, n)| <= n
    decreases n
  {
    if n > 0 {
      FoldFits(spec, bars, n - 1);
    }
  }

  lemma NoRowAt(bars: seq<Bar>, judged: seq<Bar>, ix: seq<nat>, f: nat, n: nat, rows: seq<Row>)
    requires Ordered(bars) && PickedAt(bars, judged, ix, f) && StampedAt(rows, judged) && n < f && n !in ix
    ensures forall k :: 0 <= k < |rows| ==> rows[k].at != bars[n].at
  {
    forall j | 0 <= j < |judged| ensures judged[j].at != bars[n].at {
      assert ix[j] in ix;
    }
  }

  /** Bar `n` was not judged, so the sequential pass emits nothing there. */
  lemma MissedIsSilent(spec: Spec, bars: seq<Bar>, judged: seq<Bar>, ix: seq<nat>, f: nat, n: nat)
    requires Ordered(bars) && PickedAt(bars, judged, ix, f) && StampedAt(FoldTo(spec, bars, f), judged)
    requires n < f && n !in ix
    ensures FoldTo(spec, bars, n + 1) == FoldTo(spec, bars, n)
  {
    var before, next := FoldTo(spec, bars, n), FoldTo(spec, bars, n + 1);
    assert next == before || next[|before|].at == bars[n].at;
    FoldPrefix(spec, bars, n + 1, f);
    NoRowAt(bars, judged, ix, f, n, FoldTo(spec, bars, f));
  }

  /** Folding the judged bars before `n` is folding all bars before `n`. */
  lemma {:induction false} FoldPicks(spec: Spec, bars: seq<Bar>, judged: seq<Bar>, ix: seq<nat>, f: nat, n: nat, m: nat)
    requires Ordered(bars) && PickedAt(bars, judged, ix, f) && StampedAt(FoldTo(spec, bars, f), judged)
    requires n <= f && m <= |ix| && forall k :: 0 <= k < |ix| ==> (k < m <==> ix[k] < n)
    ensures FoldTo(spec, judged, m) == FoldTo(spec, bars, n)
    decreases n
  {
    if n > 0 {
      if m > 0 && ix[m - 1] == n - 1 {
        FoldPicks(spec, bars, judged, ix, f, n - 1, m - 1);
      } else {
        assert n - 1 !in ix;
        MissedIsSilent(spec, bars, judged, ix, f, n - 1);
        FoldPicks(spec, bars, judged, ix, f, n - 1, m);
      }
    }
  }

  /** Exactly when a schedule leaves the sequential ledger, for every schedule, every series and every cap:
      when each signal of the sequential pass is at a bar some run judged. So a missed bar costs nothing
      where the sequential pass is silent, and where it is silent nowhere no gap at all is harmless. */
  lemma GapFreeExactly(spec: Spec, bars: seq<Bar>, limit: nat, wakes: seq<Wake>)
    requires Ordered(bars) && Fits(bars, wakes) && Forward(wakes)
    ensures Frontier(limit, wakes) <= |bars|
    ensures var f := Frontier(limit, wakes);
            && (RunAll(spec, bars, limit, wakes) == FoldTo(spec, bars, f)
                <==> StampedAt(FoldTo(spec, bars, f), Judged(bars, limit, wakes)))
            && (|FoldTo(spec, bars, f)| == f
                ==> (RunAll(spec, bars, limit, wakes) == FoldTo(spec, bars, f) <==> NoGap(limit, wakes)))
  {
    var f, judged := Frontier(limit, wakes), Judged(bars, limit, wakes);
    FrontierBound(bars, limit, wakes);
    LedgerFoldsJudged(spec, bars, limit, wakes);
    var ix := JudgedPicks(bars, limit, wakes);
    if StampedAt(FoldTo(spec, bars, f), judged) {
      FoldPicks(spec, bars, judged, ix, f, f, |ix|);
    }
    forall k | 0 <= k < |Fold(spec, judged)| ensures FromBars(judged, |judged|, Fold(spec, judged)[k].at) {
      FoldRow(spec, judged, |judged|, k);
    }
    GapsCount(bars, limit, wakes);
    FoldFits(spec, judged, |judged|);
    if NoGap(limit, wakes) {
      CadenceIndependent(spec, bars, limit, wakes);
    }
  }

  // ---- the worker ------------------------------------------------------------------------------

  /** Number of bars closed by `now`; a bar still forming is never judged. */
  ghost predicate ClosedBy(frame: seq<Bar>, now: int, n: nat) {
    n <= |frame| && forall k :: 0 <= k < |frame| ==> (frame[k].at <= now <==> k < n)
  }

  function CountClosed(frame: seq<Bar>, now: int): (n: nat)
    requires Ordered(frame)
    ensures ClosedBy(frame, now, n)
    decreases |frame|
  {
    if frame == [] then 0
    else if frame[|frame| - 1].at <= now then |frame|
    else CountClosed(frame[..|frame| - 1], now)
  }

  lemma OneCount(frame: seq<Bar>, now: int, m: nat, n: nat)
    requires ClosedBy(frame, now, m) && ClosedBy(frame, now, n)
    ensures m == n
  {
    var k := if m < n then m else n;
    assert k < |frame| ==> (frame[k].at <= now <==> k < m);
  }

  /** The newest `limit` closed bars, oldest first. */
  method ClosedBars(frame: seq<Bar>, now: int, limit: nat) returns (window: seq<Bar>)
    requires Ordered(frame)
    ensures var closed := CountClosed(frame, now); window == frame[WindowStart(closed, limit)..closed]
  {
    window := [];
    ghost var closed := |frame|;
    var i := |frame|;
    while i > 0
      invariant 0 <= i <= closed <= |frame|
      invariant forall k :: closed <= k < |frame| ==> frame[k].at > now
      invariant window == [] ==> i == closed
      invariant window != [] ==> closed > 0 && frame[closed - 1].at <= now && window == frame[i..closed]
      invariant limit != 0 && window != [] ==> |window| < limit
    {
      i := i - 1;
      if frame[i].at > now {
        closed := i;
        continue;
      }
      window := [frame[i]] + window;
      if limit != 0 && |window| >= limit {
        break;
      }
    }
    OneCount(frame, now, closed, CountClosed(frame, now));
  }

  /** The day's signals as the pass counts them: from its cache, or else from the ledger. */
  function CountedOn(ledger: seq<Row>, perDay: map<int, nat>, day: int): nat {
    if day in perDay then perDay[day] else CountSince(ledger, 1440 * day)
  }

  /** Why a bar yields no signal, the day's limit before the pause after the last signal, and both before a plan
      that cannot be drawn. */
  function ReasonOf(spec: Spec, bar: Bar, last: Option<int>, today: nat): Option<string> {
    var capped := 0 < spec.maxPerDay <= today;
    var tooSoon := spec.cooldownBars != 0 && last.Some?
                   && bar.at < last.value + spec.cooldownBars * spec.tfMinutes;
    match bar.call
    case Silent(why) => Some(why)
    case BadGeometry =>
      Some(if capped then "n_suppressed_max_per_day"
           else if tooSoon then "n_suppressed_cooldown"
           else "dropped_geometry")
    case Fires(_) =>
      if capped then Some("n_suppressed_max_per_day") else if tooSoon then Some("n_suppressed_cooldown") else None
  }

  lemma EvaluateGives(spec: Spec, bar: Bar, last: Option<int>, today: nat)
    ensures Evaluate(spec, bar, last, today) == ReasonOf(spec, bar, last, today)
  {}

  class Worker {
    var ledger: seq<Row>

    constructor ()
      ensures ledger == []
    {
      ledger := [];
    }

    /** Rule on one bar. `ruled` says its row, if any, reached the ledger; `alive` that the pass goes on. */
    method JudgeBar(spec: Spec, bar: Bar, dry: bool, last: Option<int>, perDay: map<int, nat>, commit: Commit)
      returns (last': Option<int>, perDay': map<int, nat>, reason: Option<string>, ruled: bool, alive: bool)
      modifies this
      ensures alive ==> ruled
      ensures ruled <==> dry || reason.Some? || !commit.Failed?
      ensures alive <==> dry || reason.Some? || commit.Applied?
      ensures dry || !ruled ==> ledger == old(ledger)
      ensures !dry && ruled ==> Pass(ledger, last', perDay') == Visit(spec, Pass(old(ledger), last, perDay), bar)
      ensures var p := Visit(spec, Pass(old(ledger), last, perDay), bar);
              && last' == p.last && perDay' == p.perDay && (reason.None? <==> p.rows != old(ledger))
      ensures AlreadyEmitted(old(ledger), bar.at) ==> reason == Some("already_emitted")
      ensures !AlreadyEmitted(old(ledger), bar.at) ==>
                reason == ReasonOf(spec, bar, last, CountedOn(old(ledger), perDay, Day(bar.at)))
    {
      var day := Day(bar.at);
      last', perDay', ruled, alive := last, perDay, true, true;
      if day !in perDay {
        perDay' := perDay[day := CountSince(ledger, 1440 * day)];
      }
      var today := perDay'[day];
      if AlreadyEmitted(ledger, bar.at) {
        reason := Some("already_emitted");
        return;
      }
      EvaluateGives(spec, bar, last, today);
      reason := Evaluate(spec, bar, last, today);
      if reason.Some? {
        return;
      }
      last', perDay' := Some(bar.at), perDay'[day := today + 1];
      if !dry {
        ruled, alive := !commit.Failed?, commit.Applied?;
        if ruled {
          ledger := ledger + [Row(bar.at, bar.call.plan)];
        }
      }
    }

    /** Judge a window bar by bar. It may die before any bar, and any bar's commit may fail or be reported
        failed; it is complete unless one of these happens. */
    method JudgeWindow(spec: Spec, window: seq<Bar>, dry: bool, dies: nat -> bool, commits: nat -> Commit)
      returns (completed: bool, emitted: nat, reasons: seq<string>, done: nat)
      modifies this
      ensures done <= |window|
      ensures completed ==> done == |window| && emitted + |reasons| == done
      ensures completed && !dry ==> |ledger| == |old(ledger)| + emitted
      ensures (forall k :: 0 <= k < |window| ==> !dies(k) && commits(k).Applied?) ==> completed
      ensures !completed ==> done < |window| || (done > 0 && !commits(done - 1).Applied?)
      ensures ledger == if dry then old(ledger) else Visits(spec, old(ledger), window, 0, done).rows
    {
      completed, emitted, reasons, done := false, 0, [], 0;
      var last, perDay: map<int, nat> := Newest(ledger), map[];
      while done < |window|
        invariant done <= |window| && emitted + |reasons| == done
        invariant dry ==> ledger == old(ledger)
        invariant !dry ==> |ledger| == |old(ledger)| + emitted
        invariant !dry ==> Pass(ledger, last, perDay) == Visits(spec, old(ledger), window, 0, done)
      {
        if dies(done) {
          return;
        }
        var reason, ruled, alive;
        last, perDay, reason, ruled, alive := JudgeBar(spec, window[done], dry, last, perDay, commits(done));
        if !ruled {
          return;
        }
        done := done + 1;
        if !alive {
          return;
        }
        if reason.Some? {
          reasons := reasons + [reason.value];
        } else {
          emitted := emitted + 1;
        }
      }
      completed := true;
    }

    /** One pass over the newest closed bars: exactly one wake of the schedule model. */
    method RunOnce(spec: Spec, frame: seq<Bar>, now: int, limit: nat, dry: bool, dies: nat -> bool,
                   commits: nat -> Commit)
      returns (completed: bool, emitted: nat, reasons: seq<string>, done: nat)
      requires Ordered(frame)
      modifies this
      ensures var closed := CountClosed(frame, now);
              && done <= closed - WindowStart(closed, limit)
              && (completed ==> done == closed - WindowStart(closed, limit) && emitted + |reasons| == done)
              && (completed && !dry ==> |ledger| == |old(ledger)| + emitted)
              && ((forall k :: 0 <= k < closed ==> !dies(k) && commits(k).Applied?) ==> completed)
              && ledger == RunWake(spec, frame, limit, old(ledger), Wake(closed, done, dry))
    {
      var window := ClosedBars(frame, now, limit);
      ghost var closed := CountClosed(frame, now);
      completed, emitted, reasons, done := JudgeWindow(spec, window, dry, dies, commits);
      ghost var lo := WindowStart(closed, limit);
      ghost var end := WakeEnd(Wake(closed, done, dry), limit);
      SameWindow(spec, old(ledger), window, 0, done, frame, lo, end);
    }
  }
}
