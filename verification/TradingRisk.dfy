/** The statistics of one customer, mode and local day, `worker/position_monitor.py`, and the portfolio gate that
    reads them, `shared/trading_risk.py`. */
module TradingRisk {
  import opened DecimalUtils
  import opened TradingTypes

  datatype DailyStatistic = DailyStatistic(
    tradesCount: int, winningTrades: int, losingTrades: int, winRatePct: real,
    grossPnlUsdt: real, netPnlUsdt: real, consecutiveLosses: int)

  const EMPTY_STATISTIC := DailyStatistic(0, 0, 0, 0.0, 0.0, 0.0, 0)

  // ---------- what a day's closed trades amount to ----------

  function Wins(pnls: seq<real>): nat {
    if pnls == [] then 0 else Wins(pnls[..|pnls| - 1]) + if pnls[|pnls| - 1] > 0.0 then 1 else 0
  }

  function Losses(pnls: seq<real>): nat {
    if pnls == [] then 0 else Losses(pnls[..|pnls| - 1]) + if pnls[|pnls| - 1] <= 0.0 then 1 else 0
  }

  function Total(pnls: seq<real>): real {
    if pnls == [] then 0.0 else Total(pnls[..|pnls| - 1]) + pnls[|pnls| - 1]
  }

  /** Length of the run of trades without a profit that the day ends with. */
  function TrailingLosses(pnls: seq<real>): (k: nat)
    ensures k <= |pnls|
    ensures forall j :: |pnls| - k <= j < |pnls| ==> pnls[j] <= 0.0
    ensures k < |pnls| ==> pnls[|pnls| - k - 1] > 0.0
  {
    if pnls == [] || pnls[|pnls| - 1] > 0.0 then 0 else 1 + TrailingLosses(pnls[..|pnls| - 1])
  }

  function WinRate(wins: int, count: int): real { SafeDiv(wins as real, count as real) * 100.0 }

  /** The statistics of a day, read off its list of trades. */
  function Summary(pnls: seq<real>): DailyStatistic {
    DailyStatistic(|pnls|, Wins(pnls), Losses(pnls), WinRate(Wins(pnls), |pnls|),
                   Total(pnls), Total(pnls), TrailingLosses(pnls))
  }

  function DayLoss(pnls: seq<real>): real { Max(-Total(pnls), 0.0) }

  lemma {:induction false} EveryTradeWinsOrLoses(pnls: seq<real>)
    ensures Wins(pnls) + Losses(pnls) == |pnls|
    decreases |pnls|
  {
    if pnls == [] {
    } else {
      EveryTradeWinsOrLoses(pnls[..|pnls| - 1]);
    }
  }

  lemma OneMoreResult(pnls: seq<real>, pnl: real)
    ensures Wins(pnls + [pnl]) == Wins(pnls) + if pnl > 0.0 then 1 else 0
    ensures Losses(pnls + [pnl]) == Losses(pnls) + if pnl > 0.0 then 0 else 1
    ensures Total(pnls + [pnl]) == Total(pnls) + pnl
    ensures TrailingLosses(pnls + [pnl]) == if pnl > 0.0 then 0 else TrailingLosses(pnls) + 1
  {
    assert (pnls + [pnl])[..|pnls|] == pnls;
  }

  /** The row with one trade more. */
  function Counted(row: DailyStatistic, netPnl: real): DailyStatistic {
    var won := netPnl > 0.0;
    var wins := row.winningTrades + if won then 1 else 0;
    DailyStatistic(row.tradesCount + 1, wins, row.losingTrades + if won then 0 else 1,
                   if row.tradesCount + 1 != 0 then WinRate(wins, row.tradesCount + 1) else row.winRatePct,
                   row.grossPnlUsdt + netPnl, row.netPnlUsdt + netPnl, if won then 0 else row.consecutiveLosses + 1)
  }

  /** Counting one trade more turns the summary of a day into the summary of the longer day. */
  lemma CountedIsSummary(pnls: seq<real>, netPnl: real)
    ensures Counted(Summary(pnls), netPnl) == Summary(pnls + [netPnl])
    ensures EMPTY_STATISTIC == Summary([])
  {
    OneMoreResult(pnls, netPnl);
  }

  /** The field updates of _update_daily_statistics on the task's copy. */
  method CountTrade(row: DailyStatistic, netPnl: real) returns (stat: DailyStatistic)
    ensures stat == Counted(row, netPnl)
  {
    stat := row.(tradesCount := row.tradesCount + 1);
    if netPnl > 0.0 {
      stat := stat.(winningTrades := stat.winningTrades + 1, consecutiveLosses := 0);
    } else {
      stat := stat.(losingTrades := stat.losingTrades + 1, consecutiveLosses := stat.consecutiveLosses + 1);
    }
    stat := stat.(netPnlUsdt := stat.netPnlUsdt + netPnl, grossPnlUsdt := stat.grossPnlUsdt + netPnl);
    if stat.tradesCount != 0 {
      stat := stat.(winRatePct := WinRate(stat.winningTrades, stat.tradesCount));
    }
  }

  // ---------- the gate ----------

  datatype RiskReason =
    | AutoTradingDisabled | BotDisabled | SymbolBlacklisted | PostTradeCooldownActive | DailyMaxLossReached
    | MaxConsecutiveLossesReached | MaxOpenPositionsReached | MaxOpenPositionsPerSymbolReached
    | LongDisabled | ShortDisabled | LeverageExceedsMaxAllowed

  datatype RiskSettings = RiskSettings(
    autoTradingEnabled: bool, botEnabled: bool, dailyMaxLossUsdt: real, maxConsecutiveLosses: int,
    maxOpenPositions: int, maxOpenPositionsPerSymbol: int, longEnabled: bool, shortEnabled: bool,
    leverage: int, maxAllowedLeverage: int)

  datatype RiskContext = RiskContext(
    openPositions: int, openPositionsForSymbol: int, dailyLossLimitReached: bool, consecutiveLosses: int,
    maxConsecutiveLossesReached: bool, isBlacklisted: bool, cooldownActive: bool,
    longDisabledForSymbol: bool, shortDisabledForSymbol: bool, maxLeverageOverride: Option<int>)

  /** `override or default`: an override of zero counts as none. */
  function MaxLeverage(s: RiskSettings, ctx: RiskContext): int {
    if ctx.maxLeverageOverride.Some? && ctx.maxLeverageOverride.value != 0 then ctx.maxLeverageOverride.value
    else s.maxAllowedLeverage
  }

  /** _portfolio_checks: the first check that refuses. */
  function PortfolioChecks(s: RiskSettings, ctx: RiskContext, side: PositionSide): Option<RiskReason> {
    if !s.botEnabled then Some(BotDisabled)
    else if ctx.isBlacklisted then Some(SymbolBlacklisted)
    else if ctx.cooldownActive then Some(PostTradeCooldownActive)
    else if ctx.dailyLossLimitReached then Some(DailyMaxLossReached)
    else if ctx.maxConsecutiveLossesReached then Some(MaxConsecutiveLossesReached)
    else if ctx.openPositions >= s.maxOpenPositions then Some(MaxOpenPositionsReached)
    else if ctx.openPositionsForSymbol >= s.maxOpenPositionsPerSymbol then Some(MaxOpenPositionsPerSymbolReached)
    else if side == Long && (!s.longEnabled || ctx.longDisabledForSymbol) then Some(LongDisabled)
    else if side == Short && (!s.shortEnabled || ctx.shortDisabledForSymbol) then Some(ShortDisabled)
    else if s.leverage > MaxLeverage(s, ctx) then Some(LeverageExceedsMaxAllowed)
    else None
  }

  /** evaluate_portfolio_risk. */
  function EvaluatePortfolioRisk(s: RiskSettings, ctx: RiskContext, side: PositionSide): Option<RiskReason> {
    if !s.autoTradingEnabled then Some(AutoTradingDisabled) else PortfolioChecks(s, ctx, side)
  }

  /** Everything the gate looks at apart from the day's results. */
  predicate OtherChecksPass(s: RiskSettings, ctx: RiskContext, side: PositionSide) {
    && s.autoTradingEnabled && s.botEnabled && !ctx.isBlacklisted && !ctx.cooldownActive
    && ctx.openPositions < s.maxOpenPositions && ctx.openPositionsForSymbol < s.maxOpenPositionsPerSymbol
    && (side == Long ==> s.longEnabled && !ctx.longDisabledForSymbol)
    && (side == Short ==> s.shortEnabled && !ctx.shortDisabledForSymbol)
    && s.leverage <= MaxLeverage(s, ctx)
  }

  /** The gate's answer, once the two loss flags are put beside all the other checks. */
  lemma GateAnswers(s: RiskSettings, ctx: RiskContext, side: PositionSide)
    ensures EvaluatePortfolioRisk(s, ctx, side).None?
            <==> OtherChecksPass(s, ctx, side) && !ctx.dailyLossLimitReached && !ctx.maxConsecutiveLossesReached
    ensures OtherChecksPass(s, ctx, side) ==>
              EvaluatePortfolioRisk(s, ctx, side) ==
              if ctx.dailyLossLimitReached then Some(DailyMaxLossReached)
              else if ctx.maxConsecutiveLossesReached then Some(MaxConsecutiveLossesReached) else None
  {
  }

  /** Whether one check by itself refuses the signal. */
  predicate Refuses(s: RiskSettings, ctx: RiskContext, side: PositionSide, reason: RiskReason) {
    match reason
    case AutoTradingDisabled => !s.autoTradingEnabled
    case BotDisabled => !s.botEnabled
    case SymbolBlacklisted => ctx.isBlacklisted
    case PostTradeCooldownActive => ctx.cooldownActive
    case DailyMaxLossReached => ctx.dailyLossLimitReached
    case MaxConsecutiveLossesReached => ctx.maxConsecutiveLossesReached
    case MaxOpenPositionsReached => s.maxOpenPositions <= ctx.openPositions
    case MaxOpenPositionsPerSymbolReached => s.maxOpenPositionsPerSymbol <= ctx.openPositionsForSymbol
    case LongDisabled => side == Long && (!s.longEnabled || ctx.longDisabledForSymbol)
    case ShortDisabled => side == Short && (!s.shortEnabled || ctx.shortDisabledForSymbol)
    case LeverageExceedsMaxAllowed => MaxLeverage(s, ctx) < s.leverage
  }

  /** In the order the checks are made. */
  function Rank(reason: RiskReason): nat {
    match reason
    case AutoTradingDisabled => 0
    case BotDisabled => 1
    case SymbolBlacklisted => 2
    case PostTradeCooldownActive => 3
    case DailyMaxLossReached => 4
    case MaxConsecutiveLossesReached => 5
    case MaxOpenPositionsReached => 6
    case MaxOpenPositionsPerSymbolReached => 7
    case LongDisabled => 8
    case ShortDisabled => 9
    case LeverageExceedsMaxAllowed => 10
  }

  /** A signal is refused for a reason exactly when that check refuses it and none ahead of it does. */
  lemma RefusedForFirst(s: RiskSettings, ctx: RiskContext, side: PositionSide, reason: RiskReason)
    ensures EvaluatePortfolioRisk(s, ctx, side) == Some(reason) <==>
              Refuses(s, ctx, side, reason) && forall r :: Refuses(s, ctx, side, r) ==> Rank(reason) <= Rank(r)
  {
    var first := EvaluatePortfolioRisk(s, ctx, side);
    assert first.Some? ==> Refuses(s, ctx, side, first.value);
  }

  function LossOf(row: DailyStatistic): real { if row.netPnlUsdt < 0.0 then Abs(row.netPnlUsdt) else 0.0 }

  /** The day's results alone refuse every signal. */
  predicate LossesRefuse(s: RiskSettings, row: DailyStatistic) {
    LossOf(row) >= s.dailyMaxLossUsdt || row.consecutiveLosses >= s.maxConsecutiveLosses
  }

  /** Read off the day's list of trades. */
  predicate DayRefuses(s: RiskSettings, pnls: seq<real>) {
    DayLoss(pnls) >= s.dailyMaxLossUsdt || TrailingLosses(pnls) >= s.maxConsecutiveLosses
  }

  /** The loss part of the context, put into the rest of it. */
  function WithLosses(s: RiskSettings, rest: RiskContext, row: DailyStatistic): RiskContext {
    rest.(dailyLossLimitReached := LossOf(row) >= s.dailyMaxLossUsdt,
          consecutiveLosses := row.consecutiveLosses,
          maxConsecutiveLossesReached := row.consecutiveLosses >= s.maxConsecutiveLosses)
  }

  // ---------- the rows of one key ----------

  /** get_or_create_daily_statistic looks at the committed rows: the copy of the one row, None where the session is
      to create one, or the error of finding several. */
  function Look(rows: seq<DailyStatistic>): Result<Option<DailyStatistic>> {
    if |rows| == 0 then Ok(None) else if |rows| == 1 then Ok(Some(rows[0])) else Raised("multiple rows found")
  }

  function CopyOf(seen: Option<DailyStatistic>): DailyStatistic { if seen.Some? then seen.value else EMPTY_STATISTIC }

  function Pick<T(==)>(stored: T, was: T, now: T): T { if now == was then stored else now }

  /** An UPDATE writes the fields the task changed in its copy, and leaves the others as they are stored by then. */
  function Merged(stored: DailyStatistic, was: DailyStatistic, now: DailyStatistic): DailyStatistic {
    DailyStatistic(Pick(stored.tradesCount, was.tradesCount, now.tradesCount),
                   Pick(stored.winningTrades, was.winningTrades, now.winningTrades),
                   Pick(stored.losingTrades, was.losingTrades, now.losingTrades),
                   Pick(stored.winRatePct, was.winRatePct, now.winRatePct),
                   Pick(stored.grossPnlUsdt, was.grossPnlUsdt, now.grossPnlUsdt),
                   Pick(stored.netPnlUsdt, was.netPnlUsdt, now.netPnlUsdt),
                   Pick(stored.consecutiveLosses, was.consecutiveLosses, now.consecutiveLosses))
  }

  /** The commit of a session that saw `seen` and holds `now`: a new row, as no index forbids a second one, or an
      update of the row it saw, the first. */
  function Store(rows: seq<DailyStatistic>, seen: Option<DailyStatistic>, now: DailyStatistic): seq<DailyStatistic> {
    if seen.None? || rows == [] then rows + [now] else rows[0 := Merged(rows[0], seen.value, now)]
  }

  /** The committed daily_statistics rows of one customer, mode and day. */
  class DailyRows {
    var rows: seq<DailyStatistic>

    constructor ()
      ensures rows == []
    {
      rows := [];
    }

    method GetOrCreate() returns (seen: Result<Option<DailyStatistic>>)
      ensures seen == Look(rows)
    {
      if |rows| > 1 { return Raised("multiple rows found"); }
      seen := Ok(if |rows| == 1 then Some(rows[0]) else None);
    }

    /** _update_daily_statistics, from the copy the session got to its commit. */
    method UpdateDailyStatistics(seen: Option<DailyStatistic>, netPnl: real)
      requires seen.Some? ==> rows != []
      modifies this
      ensures rows == Store(old(rows), seen, Counted(CopyOf(seen), netPnl))
    {
      var now := CountTrade(CopyOf(seen), netPnl);
      if seen.None? { rows := rows + [now]; } else { rows := rows[0 := Merged(rows[0], seen.value, now)]; }
    }

    /** build_risk_context and evaluate_portfolio_risk; a missing row is created on the way. A signal is let through
        exactly when every other check passes and the row's losses do not refuse it. */
    method CheckSignal(s: RiskSettings, rest: RiskContext, side: PositionSide)
      returns (answer: Result<Option<RiskReason>>)
      modifies this
      ensures answer.Raised? <==> Look(old(rows)).Raised?
      ensures rows == if Look(old(rows)) == Ok(None) then [EMPTY_STATISTIC] else old(rows)
      ensures answer.Ok? ==>
                (answer.value.None? <==>
                   OtherChecksPass(s, rest, side) && !LossesRefuse(s, CopyOf(Look(old(rows)).value)))
      ensures answer.Ok? && OtherChecksPass(s, rest, side) ==>
                (answer.value == Some(DailyMaxLossReached) <==>
                   LossOf(CopyOf(Look(old(rows)).value)) >= s.dailyMaxLossUsdt)
    {
      var seen := GetOrCreate();
      if seen.Raised? { return Raised(seen.error); }
      var row := CopyOf(seen.value);
      if seen.value.None? { rows := rows + [row]; }
      var ctx := WithLosses(s, rest, row);
      GateAnswers(s, ctx, side);
      assert OtherChecksPass(s, ctx, side) <==> OtherChecksPass(s, rest, side);
      answer := Ok(EvaluatePortfolioRisk(s, ctx, side));
    }
  }

  /** Where the row is the day's summary, the gate decides by the day's trades: their trailing run without profit
      and their loss. */
  lemma RowDecidesAsDay(s: RiskSettings, pnls: seq<real>)
    ensures LossesRefuse(s, Summary(pnls)) <==> DayRefuses(s, pnls)
  {
  }
}
