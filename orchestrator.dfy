/**
 * `runTradingProcess`: fetch the account, fetch the market data, ask the model
 * for a recommendation and hand it to the executor. The two fetches are given
 * as their results, `None` standing for a fetch that threw; the model client is
 * a script of outcomes and the broker is the scripted `Executor.Broker`.
 */
module Orchestrator {
  import opened Wrappers
  import opened Signal
  import Indicators
  import R = Recommendation
  import E = Executor
  import EP = ExecutorProperties

  /** What `fetchAccountBalance` returns, with `buying_power` parsed (`None` when not a number). */
  datatype Account = Account(equity: real, buyingPower: Option<real>)

  /**
   * What `getMarketData` returns: the current price if the quote has one, the
   * historical series if the chart response has one, and whether the OHLC
   * response is a list the prompt can slice.
   */
  datatype MarketData = MarketData(currentPrice: Option<real>, history: Option<seq<Indicators.PricePoint>>, hasOhlc: bool)

  /**
   * Whether the prompt of `getTradingRecommendation` can be built: it slices the
   * historical series and the OHLC list, and throws without either.
   */
  predicate PromptBuilds(m: MarketData)
  {
    m.history.Some? && m.hasOhlc
  }

  /**
   * One run of the process: the recommendation (none when a fetch threw and the
   * process ended in its `catch`), what the model call did, and what the
   * executor sent to the broker from reply `pos` on.
   */
  datatype ProcessRun = ProcessRun(recommendation: Option<Signal>, model: R.Recommended, trade: E.Execution)

  function TradingProcess(account: Option<Account>, market: Option<MarketData>, modelScript: seq<R.GenOutcome>,
                          brokerScript: seq<E.Reply>, pos: nat): ProcessRun
  {
    if account.None? || market.None? then ProcessRun(None, R.Recommended(None, 0, 0), E.Execution([], 0))
    else
      var o := R.Recommend(PromptBuilds(market.value), modelScript);
      var s := R.SignalOf(o);
      ProcessRun(Some(s), o, E.ExecuteTradeCalls(Word(s), account.value.buyingPower, market.value.currentPrice, brokerScript, pos))
  }

  /**
   * `runTradingProcess`. Neither `getTradingRecommendation` nor `executeTrade`
   * lets an error escape, so the outer `catch` is reached only by a failed fetch.
   */
  method RunTradingProcess(account: Option<Account>, market: Option<MarketData>, modelScript: seq<R.GenOutcome>,
                           broker: E.Broker)
    returns (recommendation: Option<Signal>, modelCalls: nat, modelWaits: nat)
    modifies broker
    ensures var p := TradingProcess(account, market, modelScript, broker.script, old(broker.next));
      recommendation == p.recommendation && modelCalls == p.model.calls && modelWaits == p.model.waits &&
      broker.trace == old(broker.trace) + p.trade.calls && broker.next == old(broker.next) + |p.trade.calls|
  {
    recommendation, modelCalls, modelWaits := None, 0, 0;
    if account.None? {
      // fetchAccountBalance threw
      return;
    }
    if market.None? {
      // getMarketData threw
      return;
    }
    var a, m := account.value, market.value;
    var indicators := Indicators.DeriveSnapshot(m.currentPrice, m.history);
    var r;
    r, modelCalls, modelWaits := R.GetTradingRecommendation(PromptBuilds(m), modelScript);
    ghost var attempts := E.ExecuteTrade(Word(r), a.buyingPower, indicators, broker);
    recommendation := Some(r);
  }

  // What a run of the process guarantees

  /** A failed fetch ends the run before the model and the broker are called. */
  lemma FailedFetchCallsNothing(account: Option<Account>, market: Option<MarketData>, modelScript: seq<R.GenOutcome>,
                                brokerScript: seq<E.Reply>, pos: nat)
    requires account.None? || market.None?
    ensures var p := TradingProcess(account, market, modelScript, brokerScript, pos);
      p.recommendation.None? && p.model.calls == 0 && p.trade.calls == []
  {
  }

  /** After both fetches a recommendation is always reached, and the executor always runs. */
  lemma FetchedRunsExecutor(account: Option<Account>, market: Option<MarketData>, modelScript: seq<R.GenOutcome>,
                            brokerScript: seq<E.Reply>, pos: nat)
    requires account.Some? && market.Some?
    ensures var p := TradingProcess(account, market, modelScript, brokerScript, pos);
      p.recommendation.Some? && 1 <= p.trade.attempts <= E.MaxRetries + 1 && p.model.calls <= R.MaxRetries + 1
  {
    var o := R.Recommend(PromptBuilds(market.value), modelScript);
    R.CallBudget(PromptBuilds(market.value), modelScript);
    EP.ExecuteTradeAttempts(Word(R.SignalOf(o)), account.value.buyingPower, market.value.currentPrice, brokerScript, pos);
  }

  /** A HOLD recommendation never reaches the broker. */
  lemma HoldNeverTrades(account: Option<Account>, market: Option<MarketData>, modelScript: seq<R.GenOutcome>,
                        brokerScript: seq<E.Reply>, pos: nat)
    ensures var p := TradingProcess(account, market, modelScript, brokerScript, pos);
      p.recommendation == Some(Hold) ==> p.trade.calls == []
  {
    var p := TradingProcess(account, market, modelScript, brokerScript, pos);
    if p.recommendation == Some(Hold) {
      EP.NoTradeWithoutBuyOrSell(Word(Hold), account.value.buyingPower, market.value.currentPrice, brokerScript, pos);
    }
  }

  /** Market data the prompt cannot be built from gives HOLD: no model call and no broker call. */
  lemma NoPromptNoTrade(account: Option<Account>, market: Option<MarketData>, modelScript: seq<R.GenOutcome>,
                        brokerScript: seq<E.Reply>, pos: nat)
    requires account.Some? && market.Some? && !PromptBuilds(market.value)
    ensures var p := TradingProcess(account, market, modelScript, brokerScript, pos);
      p.recommendation == Some(Hold) && p.model.calls == 0 && p.trade.calls == []
  {
    R.NoPromptNoCall(modelScript);
    HoldNeverTrades(account, market, modelScript, brokerScript, pos);
  }

  /**
   * The broker is called only on a BUY or SELL, and that signal is the one a
   * reply of the model actually gave.
   */
  lemma TradesOnlyOnModelAdvice(account: Option<Account>, market: Option<MarketData>, modelScript: seq<R.GenOutcome>,
                                brokerScript: seq<E.Reply>, pos: nat)
    ensures var p := TradingProcess(account, market, modelScript, brokerScript, pos);
      p.trade.calls != [] ==>
        p.recommendation.Some? && p.recommendation.value != Hold &&
        exists k :: 0 <= k < p.model.calls && R.OutcomeAt(modelScript, k).Reply? &&
          ExtractSignal(R.OutcomeAt(modelScript, k).text) == p.recommendation.value
  {
    var p := TradingProcess(account, market, modelScript, brokerScript, pos);
    HoldNeverTrades(account, market, modelScript, brokerScript, pos);
    if p.trade.calls != [] {
      R.TradeSignalComesFromAReply(PromptBuilds(market.value), modelScript);
    }
  }

  // The process with the recommendation as written

  /**
   * With `getTradingRecommendation` as written, the run recommends what the
   * corrected version recommends, unless the first model call fails with 503.
   */
  lemma AsWrittenDiffersOnlyAfterServiceUnavailable(account: Option<Account>, market: Option<MarketData>,
                                                    modelScript: seq<R.GenOutcome>, brokerScript: seq<E.Reply>, pos: nat)
    requires account.Some? && market.Some?
    requires !PromptBuilds(market.value) || !R.IsServiceUnavailable(R.OutcomeAt(modelScript, 0))
    ensures TradingProcess(account, market, modelScript, brokerScript, pos).recommendation ==
      Some(R.SignalOf(R.RecommendAsWritten(PromptBuilds(market.value), modelScript)))
  {
    R.AsWrittenAgreesWithoutServiceUnavailable(PromptBuilds(market.value), modelScript);
  }

  /**
   * As written, a first 503 gives HOLD, so the executor then makes no broker call,
   * whatever the later replies would have been.
   */
  lemma AsWrittenServiceUnavailableNeverTrades(account: Account, market: MarketData, modelScript: seq<R.GenOutcome>,
                                               brokerScript: seq<E.Reply>, pos: nat)
    requires PromptBuilds(market) && R.IsServiceUnavailable(R.OutcomeAt(modelScript, 0))
    ensures var s := R.SignalOf(R.RecommendAsWritten(true, modelScript));
      s == Hold && E.ExecuteTradeCalls(Word(s), account.buyingPower, market.currentPrice, brokerScript, pos).calls == []
  {
    R.AsWrittenNeverRecovers(modelScript);
    EP.NoTradeWithoutBuyOrSell(Word(Hold), account.buyingPower, market.currentPrice, brokerScript, pos);
  }
}
