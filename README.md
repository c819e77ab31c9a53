# Crypto trading assistant: the decision and execution pipeline in Dafny

`src/index.js` runs a trading cycle on a timer. Each cycle:

1. fetches the account and the market data;
2. derives two simple moving averages (SMA7 and SMA50) from the price history;
3. asks a text-generation model for a recommendation, retrying when the model service answers 503;
4. picks BUY, SELL or HOLD out of the reply text;
5. sends the broker what that signal calls for, with a bounded retry loop around the broker calls.

This project models those steps and proves what each one guarantees.

| file | module | what it models | form |
|---|---|---|---|
| `wrappers.dfy` | `Wrappers` | the `Option` type | datatype |
| `indicators.dfy` | `Indicators` | the SMA arithmetic of `getMarketData` | functions and lemmas |
| `signal.dfy` | `Signal` | `trim`, `toUpperCase` and the `\b(BUY\|SELL\|HOLD)\b` search of the reply text | functions and lemmas |
| `recommendation.dfy` | `Recommendation` | `getTradingRecommendation` and its 503 retry loop | a method with a `for` loop, proved against a function |
| `executor.dfy` | `Executor` | `executeTrade` and a scripted broker | a `Broker` class, and a method with a `while` loop proved against a recursive function |
| `executor_properties.dfy` | `ExecutorProperties` | what the executor's retry loop guarantees | lemmas |
| `orchestrator.dfy` | `Orchestrator` | `runTradingProcess` | a method, proved against a function |

How the model stands in for the outside world:

- **The model client** is a sequence of outcomes, one per `generateContent` call. Each outcome is a reply text or an error with an optional `status`. Past the end of the sequence, every call fails without a status.
- **The broker** is a `Broker` object. It holds a script of replies, one per call, and advances a cursor through it. A ghost trace records every `createOrder`, `getPosition` and `closePosition` call.
- **The executor** is specified by the function `Run`, which gives the calls that the attempts from a given attempt number on make, and how many attempts there are. `ExecuteTrade` is proved to append exactly those calls to the trace. The lemmas about `Run` state which orders are placed and when the loop retries.
- **Prices and buying power** are `real`. A number that is NaN is `None`.
- **Waits** before model retries are counted, not timed.

## Model

| member | source | states |
|---|---|---|
| Indicators.Closes | src/index.js:107 | the closes keep the length of the series, and each close is the price of its point |
| Indicators.DeriveSnapshot | src/index.js:106-119 | `sma7` is present exactly when the series has at least 7 points, and then 7 times it is the sum of the last 7 closes; the same holds for `sma50` with 50; the price and the series are passed through unchanged |
| Indicators.ReduceIsSum | src/index.js:110 | the left fold `reduce((a, b) => a + b, acc)` equals `acc` plus the sum of the sequence |
| Indicators.WindowMeanIsSum | src/index.js:109-117 | a window mean exists exactly when there are at least `n` closes, and then `n` times it is the sum of the last `n` closes |
| Indicators.SumBounds | src/index.js:110 | a sum of `k` values that all lie in `[lo, hi]` lies between `k * lo` and `k * hi` |
| Indicators.SumAppend | src/index.js:110 | the sum of a concatenation is the sum of its parts |
| Indicators.WindowSumBounds | src/index.js:109-117 | the sum of a window whose prices lie in `[lo, hi]` lies between `n * lo` and `n * hi` |
| Indicators.SmaWithinWindowRange | src/index.js:106-119 | each moving average lies between the lowest and the highest price of its window |
| Indicators.ClosesAppend | src/index.js:107 | the closes of a concatenation are the concatenation of the closes |
| Indicators.SmaIgnoresOlderHistory | src/index.js:109-117 | points older than the window do not change `sma7` or `sma50` |
| Indicators.ShortSmaSlides | src/index.js:109-112 | appending one point changes 7 times `sma7` by adding the new price and dropping the oldest price of the previous window |
| Signal.TrimStart | src/index.js:167 | the result is a suffix of the input that does not start with white space, and everything removed was white space |
| Signal.TrimEnd | src/index.js:167 | the result is a prefix of the input that does not end with white space, and everything removed was white space |
| Signal.UpperChar | src/index.js:167 | a lower-case letter becomes the upper-case letter at the same place in the alphabet; any other character is unchanged; the result is never a lower-case letter and is a word character exactly when the input is |
| Signal.ToUpper | src/index.js:167 | the length is kept; no lower-case letter remains; characters other than lower-case letters are unchanged; each position holds a word character exactly when it did before, so the `\b` boundaries are those of the input |
| Signal.MatchAt | src/index.js:173 | a signal is found at position `i` exactly when its word matches there between `\b` boundaries; if none is found, no word matches there |
| Signal.SpelledAt | src/index.js:173 | a `\b`-bounded word matches exactly when its letters stand at `i` and no word character touches them on either side |
| Signal.FindFrom | src/index.js:173 | the search returns a match at a position where its word stands between boundaries, with no match at any earlier position; it returns nothing only when no word matches anywhere |
| Signal.ExtractSignalSound | src/index.js:171-178 | BUY or SELL comes out only when that word stands as a whole word in the normalised text; with no whole word anywhere, the result is HOLD |
| Signal.TokenAtUnique | src/index.js:173 | at most one of the three words matches at any position |
| Signal.LeftmostTokenIsFound | src/index.js:172-175 | the search finds the leftmost whole-word occurrence |
| Signal.ExtractIsLeftmostToken | src/index.js:167-175 | extraction returns the word of the leftmost whole-word occurrence in the trimmed, upper-cased reply |
| Signal.TrimUnchanged | src/index.js:167 | text with no white space at either end is left alone by `trim` |
| Signal.TokenAtInitial | src/index.js:173 | a match starts with B, S or H |
| Signal.FoundAfterPlainPrefix | src/index.js:173 | if no B, S or H comes before a standalone word, the search finds that word |
| Signal.NoTokenWithoutInitial | src/index.js:173 | no match starts at a position that holds no B, S or H |
| Signal.ExtractBuyExample | src/index.js:167-175 | "I recommend we BUY aggressively because..." gives BUY |
| Signal.ExtractHoldingExample | src/index.js:171-177 | "HOLDING is wise here." has no whole-word match at any position, so it gives the HOLD default, not a match inside HOLDING |
| Signal.HoldingHasNoToken | src/index.js:173 | no word of the pattern matches anywhere in the upper-cased HOLDING reply |
| Recommendation.RetryCalls | src/index.js:189-215 | counting from the retry at which it starts, the 503 retry loop makes between 2 and 4 calls in all; it ends at the first reply or at the fourth call, and every call before the last one failed |
| Recommendation.GetTradingRecommendation | src/index.js:135-220 | the signal, the number of model calls and the number of waits are those of `Recommend`, which resends the prompt on each retry |
| Recommendation.CallBudget | src/index.js:186-215 | at most 4 model calls, and one wait before every call after the first |
| Recommendation.NoPromptNoCall | src/index.js:137-219 | when building the prompt throws, the result is HOLD without any model call, because that error has no status |
| Recommendation.FirstReplyIsUsed | src/index.js:165-181 | a first reply is used as it is: one call, and the signal extracted from it |
| Recommendation.OnlyServiceUnavailableRetries | src/index.js:184-219 | a failed first call is retried exactly when its status is 503; any other first failure gives HOLD after one call |
| Recommendation.ServiceUnavailableRetries | src/index.js:186-215 | after a first 503, every call before the last failed, whatever its status; the last call's reply decides, and if it failed too, four calls were made and the result is HOLD |
| Recommendation.DecidingReplyIsLastCall | src/index.js:165-207 | the reply whose text gives the signal is the outcome of the last call made |
| Recommendation.TradeSignalComesFromAReply | src/index.js:171-207 | BUY or SELL is returned only if some reply the model actually gave extracts to it |
| Recommendation.GetTradingRecommendationAsWritten | src/index.js:140-215 | the signal, the calls and the waits are those of `RecommendAsWritten`, where every retry fails before it calls the model |
| Recommendation.AsWrittenNeverRecovers | src/index.js:189-213 | as written, a first 503 always ends in HOLD after three waits and no second model call |
| Recommendation.AsWrittenAgreesWithoutServiceUnavailable | src/index.js:165-219 | the written and the corrected versions agree unless the first call fails with 503 |
| Recommendation.ExtractBareWord | src/index.js:173-175 | a reply that is just BUY, SELL or HOLD yields that signal |
| Recommendation.RetryFindingWitness | src/index.js:140-212 | a 503 followed by the reply "BUY" gives HOLD as written and BUY when the retry resends the prompt |
| Executor.Broker.constructor | src/index.js:45-50 | a new broker client is at the start of its script with an empty trace |
| Executor.Broker.CreateOrder | src/index.js:253-259 | returns the next scripted reply and records the order |
| Executor.Broker.GetPosition | src/index.js:269 | returns the next scripted reply and records the lookup |
| Executor.Broker.ClosePosition | src/index.js:272 | returns the next scripted reply and records the close |
| Executor.TryBuy | src/index.js:238-265 | one BUY attempt makes the calls of `AttemptOnce(ActionFor("BUY", …))` and ends as it does |
| Executor.TrySell | src/index.js:266-284 | one SELL attempt, with its inner `catch`, makes the calls of `SellAttempt` and ends as it does |
| Executor.TryOnce | src/index.js:238-291 | the body of one attempt takes the branch that the recommendation selects, and records that branch's calls |
| Executor.Step | src/index.js:231-312 | one loop iteration records the calls of its attempt; it stops exactly when the attempt returned, was the last one, or hit a non-retryable status, and then the whole execution has been recorded |
| Executor.ExecuteTrade | src/index.js:224-314 | the broker trace grows by exactly the calls of `ExecuteTradeCalls`, the cursor moves past them, and the number of attempts is that of `ExecuteTradeCalls` |
| ExecutorProperties.AttemptsWithinBudget | src/index.js:230-313 | a run makes at least one attempt and no more than the attempts left in the budget |
| ExecutorProperties.ExecuteTradeAttempts | src/index.js:227-313 | `executeTrade` makes between 1 and 4 attempts |
| ExecutorProperties.RetriesOnlyAfterRetryableError | src/index.js:292-312 | there is a further attempt exactly when this one threw, budget is left, and the status is not 422, 403 or 401 |
| ExecutorProperties.NonRetryableErrorStops | src/index.js:307-310 | a 422, 403 or 401 ends the run after the attempt that received it |
| ExecutorProperties.NoTradeWithoutBuyOrSell | src/index.js:285-291 | HOLD and any unknown recommendation make no broker call and one attempt |
| ExecutorProperties.BuyPreconditionFailureIsFinal | src/index.js:239-248 | a BUY with a missing or zero price, or with a buying power that is not a positive number, places nothing and is not retried |
| ExecutorProperties.BuyDecision | src/index.js:238-265 | a BUY places an order exactly when the price and the buying power are usable and 90% of the buying power exceeds 1; that order is the `BTC/USD` market buy, good till cancelled, for that notional |
| ExecutorProperties.OrderRunSendsOnlyTheOrder | src/index.js:231-313 | a run that places an order sends that order exactly once per attempt, at least once, and sends nothing else |
| ExecutorProperties.NoCallRunIsEmpty | src/index.js:285-291 | a run with nothing to do makes no call and one attempt |
| ExecutorProperties.BuyPlacesOnlyTheSizedOrder | src/index.js:249-265 | a BUY calls the broker exactly when the checks pass and the notional exceeds 1, and every call is the order for 90% of the buying power |
| ExecutorProperties.ThousandBuysNineHundred | src/index.js:249-261 | a buying power of 1000 places one order for 900 when the broker accepts it |
| ExecutorProperties.OneDollarBuysNothing | src/index.js:249-264 | a buying power of 1 gives a notional of 0.9 and places nothing |
| ExecutorProperties.RetryableFailuresExhaustBudget | src/index.js:292-312 | against a broker that keeps failing with retryable errors, the order is sent once on every attempt left, and then the run gives up |
| ExecutorProperties.BuyAgainstFailingBrokerTriesFourTimes | src/index.js:231-313 | a sized BUY against a broker that keeps failing with retryable errors makes four attempts and sends four identical orders |
| ExecutorProperties.MissingPositionIsNoOp | src/index.js:278-282 | a 404 from the position lookup is a no-op: one lookup and no retry |
| ExecutorProperties.SellAttemptShape | src/index.js:268-284 | a SELL attempt starts with a lookup and closes only right after a lookup that found a positive quantity; if its last call is a lookup, that lookup found nothing to close |
| ExecutorProperties.SellClosesOnlyOpenPositions | src/index.js:266-313 | across all attempts, a SELL only looks the position up and closes it; it starts with a lookup, closes exactly after the lookups that found a positive quantity, and never ends on a lookup that found one |
| ExecutorProperties.SellIgnoresBuyingPowerAndPrice | src/index.js:266-284 | the calls of a SELL do not depend on the buying power or the price |
| Orchestrator.RunTradingProcess | src/index.js:317-329 | the recommendation, the model calls and waits, and the broker calls are those of `TradingProcess`; no error leaves the method |
| Orchestrator.FailedFetchCallsNothing | src/index.js:319-327 | a failed account or market fetch ends the run with no recommendation, no model call and no broker call |
| Orchestrator.FetchedRunsExecutor | src/index.js:321-324 | after both fetches, a recommendation is always reached; the executor makes 1 to 4 attempts and the model gets at most 4 calls |
| Orchestrator.HoldNeverTrades | src/index.js:324 | a HOLD recommendation never reaches the broker |
| Orchestrator.NoPromptNoTrade | src/index.js:321-324 | market data without a price series or OHLC list gives HOLD with no model call and no broker call |
| Orchestrator.TradesOnlyOnModelAdvice | src/index.js:317-329 | the broker is called only on BUY or SELL, and only when a reply the model actually gave extracts to that signal |
| Orchestrator.AsWrittenDiffersOnlyAfterServiceUnavailable | src/index.js:165-219 | the run recommends what `getTradingRecommendation` as written returns, unless the first model call fails with 503 |
| Orchestrator.AsWrittenServiceUnavailableNeverTrades | src/index.js:184-212 | as written, a first 503 gives HOLD, and the executor then makes no broker call |

## Left out

- Logging, the `.env` loading and the API client setup are not modelled; they are configuration with no behaviour to prove.
- `fetchAccountBalance` and the HTTP requests of `getMarketData` are network I/O. The orchestrator takes their results as parameters, with `None` for a fetch that threw. The parsed account is given as numbers.
- The prompt text is not built. Only whether building it throws, for a missing price series or OHLC list, enters the model.
- The 10-second (model) and 5-second (broker) `setTimeout` waits take real time, so their lengths are not modelled. The recommendation method counts its waits; the executor does not count the wait before each retry.
- Orchestrator.RunTradingProcess: it composes the corrected `getTradingRecommendation`, which resends the prompt on a retry. As written, a first 503 always gives HOLD and no trade. With the corrected version, a later reply can still lead to a BUY or SELL. `Orchestrator.AsWrittenDiffersOnlyAfterServiceUnavailable` and `Orchestrator.AsWrittenServiceUnavailableNeverTrades` state the as-written behaviour.
- The cron schedule and the start-up run are process scheduling, outside the model.
- Prices, means and the 90% sizing are computed over `real`. IEEE-754 rounding, NaN (other than as `None`) and infinities are not modelled.
- Signal.ToUpper: upper-cases only the ASCII letters a–z. Locale rules and special casing of other characters are not modelled. Because of this, the regular expression's `i` flag has no effect on the upper-cased text.
- Signal.ExtractSignal: it has no `ensures` of its own. `Signal.ExtractSignalSound` and `Signal.ExtractIsLeftmostToken` state what it returns.
- Recommendation.GetTradingRecommendation: every return of the source extracts the signal on the spot. The method keeps the deciding reply and extracts once at the end, which gives the same result.
- Executor.Broker: a position whose `qty` does not parse as a number is not representable. It behaves like no position, which the `Done` reply already covers.
- The error object's fields other than `status` and `statusCode` (`response.data`, `message`) are only logged, and are left out.

## Findings

| source | as written | input that shows it | evidently intended | confidence | as-written member | corrected member |
|---|---|---|---|---|---|---|
| src/index.js:140-193 | `prompt` is declared with `const` inside the `try` block (line 140). The retry at line 193 runs in the `catch` block, where `prompt` is not in scope, so each retry throws a reference error before it calls the model. After three waits the result is HOLD. | the first `generateContent` call fails with status 503 and the second would reply "BUY" | each retry resends the same prompt, and the first successful reply decides | not executed | Recommendation.GetTradingRecommendationAsWritten | Recommendation.GetTradingRecommendation |

`Recommendation.AsWrittenNeverRecovers` proves that, as written, a first 503 always gives HOLD. `Recommendation.RetryFindingWitness` exhibits the script above. The orchestrator uses the corrected method.
