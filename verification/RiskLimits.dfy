/**
 What the risk limits let through, in numbers: over every run, each draft that was checked was within all four
 bounds when it was, and none that is within them is blocked.
 */
module RiskLimits {
  import opened Wrappers
  import opened Prices
  import opened Rows
  import opened Book
  import opened Invariants
  import opened Steps
  import opened Safety

  /** Nothing halts trading, and with the limits on the day's loss has not reached the daily limit, the trade
      risks no more than its share of it, and neither cap is passed. A limit of 0 is off; the daily limit is an
      amount, written with either sign. */
  predicate Within(cfg: RiskCfg, risk: real, day: real, onSymbol: real, onAccount: real) {
    && !cfg.halted
    && (cfg.enabled ==>
          && (cfg.dailyLoss > 0.0 ==> 0.0 < day + cfg.dailyLoss)
          && (cfg.dailyLoss < 0.0 ==> cfg.dailyLoss < day)
          && (cfg.dailyLoss > 0.0 && cfg.perSignalPct != 0.0 ==> risk <= cfg.dailyLoss * cfg.perSignalPct)
          && (cfg.dailyLoss < 0.0 && cfg.perSignalPct != 0.0 ==> risk <= (0.0 - cfg.dailyLoss) * cfg.perSignalPct)
          && (cfg.capSymbol != 0.0 ==> onSymbol + risk <= cfg.capSymbol)
          && (cfg.capAccount != 0.0 ==> onAccount + risk <= cfg.capAccount))
  }

  /** The reason given is one that holds. */
  predicate Holds(why: Block, cfg: RiskCfg, risk: real, day: real, onSymbol: real, onAccount: real) {
    match why
    case Halted => cfg.halted
    case DailyLoss => cfg.enabled && cfg.dailyLoss != 0.0 && (day <= cfg.dailyLoss || day + cfg.dailyLoss <= 0.0)
    case PerSignal =>
      cfg.enabled && !Within(cfg.(capSymbol := 0.0, capAccount := 0.0), risk, day, 0.0, 0.0)
      && Within(cfg.(capSymbol := 0.0, capAccount := 0.0, perSignalPct := 0.0), risk, day, 0.0, 0.0)
    case SymbolCap => cfg.enabled && cfg.capSymbol != 0.0 && onSymbol + risk > cfg.capSymbol
    case AccountCap => cfg.enabled && cfg.capAccount != 0.0 && onAccount + risk > cfg.capAccount
  }

  predicate AtRisk(tr: Trade, account: nat, symbol: Option<string>) {
    (tr.status.Live? || tr.status.Partial?) && tr.account == account && (symbol.None? || symbol == Some(tr.symbol))
  }

  /** The planned risk of an account's open and partial trades, optionally of one symbol, summed row by row. */
  function Exposure(trades: seq<Trade>, account: nat, symbol: Option<string>): real {
    if trades == [] then 0.0
    else (if AtRisk(trades[0], account, symbol) then trades[0].risk else 0.0) + Exposure(trades[1..], account, symbol)
  }

  lemma {:induction false} ExposureOfLast(trades: seq<Trade>, account: nat, symbol: Option<string>)
    requires trades != []
    ensures var n := |trades| - 1;
            Exposure(trades, account, symbol)
            == Exposure(trades[..n], account, symbol)
               + if AtRisk(trades[n], account, symbol) then trades[n].risk else 0.0
  {
    var n := |trades| - 1;
    if n == 0 {
      assert trades[1..] == [] && trades[..0] == [];
    } else {
      ExposureOfLast(trades[1..], account, symbol);
      assert trades[1..][..n - 1] == trades[..n][1..];
    }
  }

  lemma {:induction false} OpenRiskIsExposure(trades: seq<Trade>, account: nat, symbol: Option<string>)
    ensures OpenRisk(trades, account, symbol) == Exposure(trades, account, symbol)
  {
    if trades != [] {
      OpenRiskIsExposure(trades[..|trades| - 1], account, symbol);
      ExposureOfLast(trades, account, symbol);
    }
  }

  /** A draft against the trades there are. */
  predicate DraftWithin(cfg: RiskCfg, trades: seq<Trade>, draft: Trade, day: real) {
    Within(cfg, draft.risk, day, Exposure(trades, draft.account, Some(draft.symbol)),
           Exposure(trades, draft.account, None))
  }

  lemma ReasonHolds(cfg: RiskCfg, risk: real, day: real, onSymbol: real, onAccount: real)
    ensures var why := RiskLimitReason(cfg, risk, day, onSymbol, onAccount);
            && (why.None? <==> Within(cfg, risk, day, onSymbol, onAccount))
            && (why.Some? ==> Holds(why.value, cfg, risk, day, onSymbol, onAccount))
  {}

  /** A draft is let through exactly when it is within every bound. */
  lemma AllowedExactly(cfg: RiskCfg, trades: seq<Trade>, draft: Trade, day: real)
    ensures RiskOk(cfg, trades, draft, day) <==> DraftWithin(cfg, trades, draft, day)
  {
    OpenRiskIsExposure(trades, draft.account, Some(draft.symbol));
    OpenRiskIsExposure(trades, draft.account, None);
    ReasonHolds(cfg, draft.risk, day, OpenRisk(trades, draft.account, Some(draft.symbol)),
                OpenRisk(trades, draft.account, None));
  }

  /** Over every run, whatever was durable when a draft was checked, the draft was within every bound. */
  lemma ChecksWithin(cfg: RiskCfg, ws: seq<World>, es: seq<Event>, k: nat)
    requires Run(cfg, ws, es) && k < |es| && es[k].Check?
    ensures !cfg.halted && DraftWithin(cfg, ws[k].db.trades, es[k].draft, es[k].dayRealized)
  {
    assert StepAt(cfg, ws, es, k);
    AllowedExactly(cfg, ws[k].db.trades, es[k].draft, es[k].dayRealized);
  }

  /** So in every reachable durable state the rows' own sums are within both caps. */
  lemma CapsBoundExposure(cfg: RiskCfg, ws: seq<World>, es: seq<Event>, k: nat, account: nat, symbol: string)
    requires Run(cfg, ws, es) && k < |ws| && cfg.enabled
    ensures cfg.capSymbol > 0.0 ==> Exposure(ws[k].db.trades, account, Some(symbol)) <= cfg.capSymbol
    ensures cfg.capAccount > 0.0 ==> Exposure(ws[k].db.trades, account, None) <= cfg.capAccount
  {
    RiskCapsHold(cfg, ws, es, k, account, symbol);
    OpenRiskIsExposure(ws[k].db.trades, account, Some(symbol));
    OpenRiskIsExposure(ws[k].db.trades, account, None);
  }

  /** A better day, a smaller risk or less exposure never turns "allowed" into "blocked". */
  lemma BetterIsAllowed(cfg: RiskCfg, trades: seq<Trade>, draft: Trade, day: real, fewer: seq<Trade>, smaller: Trade,
                        better: real)
    requires RiskOk(cfg, trades, draft, day)
    requires smaller.account == draft.account && smaller.symbol == draft.symbol && smaller.risk <= draft.risk
    requires better >= day
    requires Exposure(fewer, draft.account, Some(draft.symbol)) <= Exposure(trades, draft.account, Some(draft.symbol))
    requires Exposure(fewer, draft.account, None) <= Exposure(trades, draft.account, None)
    ensures RiskOk(cfg, fewer, smaller, better)
  {
    AllowedExactly(cfg, trades, draft, day);
    AllowedExactly(cfg, fewer, smaller, better);
  }
}
