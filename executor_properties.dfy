/**
 * What the retry loop of `executeTrade` guarantees: how many attempts it makes,
 * when it retries, and which broker calls each recommendation can lead to.
 */
module ExecutorProperties {
  import opened Wrappers
  import opened Executor

  // The attempt budget and the retry decision

  /** A run makes at least one attempt and never more than the budget left. */
  lemma {:induction false} AttemptsWithinBudget(action: Action, script: seq<Reply>, pos: nat, attempt: nat)
    requires attempt <= MaxRetries
    ensures 1 <= Run(action, script, pos, attempt).attempts <= MaxRetries + 1 - attempt
    decreases MaxRetries - attempt
  {
    var a := AttemptOnce(action, script, pos);
    if !StopsAfter(a.end, attempt) {
      AttemptsWithinBudget(action, script, pos + |a.calls|, attempt + 1);
    }
  }

  /** `executeTrade` makes between one and `maxRetries + 1` attempts. */
  lemma ExecuteTradeAttempts(recommendation: string, buyingPower: Option<real>, price: Option<real>,
                             script: seq<Reply>, pos: nat)
    ensures 1 <= ExecuteTradeCalls(recommendation, buyingPower, price, script, pos).attempts <= MaxRetries + 1
  {
    AttemptsWithinBudget(ActionFor(recommendation, buyingPower, price), script, pos, 0);
  }

  /** There is a further attempt exactly when this one threw a retryable error and budget is left. */
  lemma RetriesOnlyAfterRetryableError(action: Action, script: seq<Reply>, pos: nat, attempt: nat)
    requires attempt <= MaxRetries
    ensures var a := AttemptOnce(action, script, pos);
      Run(action, script, pos, attempt).attempts > 1 <==>
        a.end.Threw? && attempt < MaxRetries && !IsNonRetryable(a.end.statusCode)
  {
    var a := AttemptOnce(action, script, pos);
    if !StopsAfter(a.end, attempt) {
      AttemptsWithinBudget(action, script, pos + |a.calls|, attempt + 1);
    }
  }

  /** A 422, 403 or 401 ends the run after the attempt that received it. */
  lemma NonRetryableErrorStops(action: Action, script: seq<Reply>, pos: nat, attempt: nat)
    requires attempt <= MaxRetries
    requires AttemptOnce(action, script, pos).end.Threw?
    requires IsNonRetryable(AttemptOnce(action, script, pos).end.statusCode)
    ensures Run(action, script, pos, attempt) == Execution(AttemptOnce(action, script, pos).calls, 1)
  {
  }

  // Which calls each recommendation leads to

  /** HOLD, and any recommendation other than BUY or SELL, makes no broker call and no retry. */
  lemma NoTradeWithoutBuyOrSell(recommendation: string, buyingPower: Option<real>, price: Option<real>,
                                script: seq<Reply>, pos: nat)
    requires recommendation != "BUY" && recommendation != "SELL"
    ensures ExecuteTradeCalls(recommendation, buyingPower, price, script, pos) == Execution([], 1)
  {
  }

  /** A BUY without a usable price or buying power places nothing and is not retried. */
  lemma BuyPreconditionFailureIsFinal(buyingPower: Option<real>, price: Option<real>, script: seq<Reply>, pos: nat)
    requires !IsTruthyPrice(price) || !IsValidBuyingPower(buyingPower)
    ensures ExecuteTradeCalls("BUY", buyingPower, price, script, pos) == Execution([], 1)
  {
  }

  /** A BUY places an order exactly when the price and buying power are usable and 90% of it exceeds one dollar. */
  lemma BuyDecision(buyingPower: Option<real>, price: Option<real>)
    ensures ActionFor("BUY", buyingPower, price).PlaceOrder? <==>
      IsTruthyPrice(price) && IsValidBuyingPower(buyingPower) && buyingPower.value * BuyFraction > MinNotional
    ensures ActionFor("BUY", buyingPower, price).PlaceOrder? ==>
      ActionFor("BUY", buyingPower, price).order == BuyOrder(buyingPower.value * BuyFraction)
    ensures !ActionFor("BUY", buyingPower, price).SellPosition?
  {
  }

  /** A run that places `order` sends it once on every attempt, and at least once. */
  lemma {:induction false} OrderRunSendsOnlyTheOrder(order: Order, script: seq<Reply>, pos: nat, attempt: nat)
    requires attempt <= MaxRetries
    ensures var e := Run(PlaceOrder(order), script, pos, attempt);
      e.calls != [] && |e.calls| == e.attempts && forall k :: 0 <= k < |e.calls| ==> e.calls[k] == CreateOrder(order)
    decreases MaxRetries - attempt
  {
    var a := AttemptOnce(PlaceOrder(order), script, pos);
    if !StopsAfter(a.end, attempt) {
      OrderRunSendsOnlyTheOrder(order, script, pos + 1, attempt + 1);
    }
  }

  /** A run with nothing to do makes no call and one attempt. */
  lemma NoCallRunIsEmpty(script: seq<Reply>, pos: nat, attempt: nat)
    requires attempt <= MaxRetries
    ensures Run(NoCall, script, pos, attempt) == Execution([], 1)
  {
  }

  /**
   * Every call of a BUY is the market order for 90% of the buying power, and
   * there is one exactly when the price and buying power are usable and that
   * notional exceeds one dollar.
   */
  lemma BuyPlacesOnlyTheSizedOrder(buyingPower: Option<real>, price: Option<real>, script: seq<Reply>, pos: nat)
    ensures var calls := ExecuteTradeCalls("BUY", buyingPower, price, script, pos).calls;
      (calls != [] <==>
        IsTruthyPrice(price) && IsValidBuyingPower(buyingPower) && buyingPower.value * BuyFraction > MinNotional) &&
      forall k :: 0 <= k < |calls| ==>
        buyingPower.Some? && calls[k] == CreateOrder(BuyOrder(buyingPower.value * BuyFraction))
  {
    BuyDecision(buyingPower, price);
    var action := ActionFor("BUY", buyingPower, price);
    if action.PlaceOrder? {
      OrderRunSendsOnlyTheOrder(action.order, script, pos, 0);
    } else {
      NoCallRunIsEmpty(script, pos, 0);
    }
  }

  /** A buying power of 1000 gives a notional of 900 and, when the broker accepts, one order for it. */
  lemma ThousandBuysNineHundred(price: Option<real>, script: seq<Reply>, pos: nat)
    requires IsTruthyPrice(price) && ReplyAt(script, pos) == Done
    ensures ExecuteTradeCalls("BUY", Some(1000.0), price, script, pos) == Execution([CreateOrder(BuyOrder(900.0))], 1)
  {
    assert ActionFor("BUY", Some(1000.0), price) == PlaceOrder(BuyOrder(900.0));
  }

  /** A buying power of 1 gives a notional of 0.9, too small to place an order. */
  lemma OneDollarBuysNothing(price: Option<real>, script: seq<Reply>, pos: nat)
    ensures ExecuteTradeCalls("BUY", Some(1.0), price, script, pos) == Execution([], 1)
  {
    assert ActionFor("BUY", Some(1.0), price) == NoCall;
  }

  /**
   * When the broker keeps failing with retryable errors, an order is sent once on
   * every attempt left and then the run gives up.
   */
  lemma {:induction false} RetryableFailuresExhaustBudget(order: Order, script: seq<Reply>, pos: nat, attempt: nat)
    requires attempt <= MaxRetries
    requires forall k :: pos <= k ==> ReplyAt(script, k).Failed? && !IsNonRetryable(ReplyAt(script, k).statusCode)
    ensures Run(PlaceOrder(order), script, pos, attempt) ==
      Execution(seq(MaxRetries + 1 - attempt, _ => CreateOrder(order)), MaxRetries + 1 - attempt)
    decreases MaxRetries - attempt
  {
    assert ReplyAt(script, pos).Failed?;
    if attempt < MaxRetries {
      RetryableFailuresExhaustBudget(order, script, pos + 1, attempt + 1);
      assert [CreateOrder(order)] + seq(MaxRetries - attempt, _ => CreateOrder(order)) ==
        seq(MaxRetries + 1 - attempt, _ => CreateOrder(order));
    } else {
      assert [CreateOrder(order)] == seq(1, _ => CreateOrder(order));
    }
  }

  /** A sized BUY against a broker that keeps failing with retryable errors sends four orders. */
  lemma BuyAgainstFailingBrokerTriesFourTimes(buyingPower: Option<real>, price: Option<real>,
                                              script: seq<Reply>, pos: nat)
    requires IsTruthyPrice(price) && IsValidBuyingPower(buyingPower) && buyingPower.value * BuyFraction > MinNotional
    requires forall k :: pos <= k ==> ReplyAt(script, k).Failed? && !IsNonRetryable(ReplyAt(script, k).statusCode)
    ensures var e := ExecuteTradeCalls("BUY", buyingPower, price, script, pos);
      e.attempts == 4 && |e.calls| == 4 &&
      forall k :: 0 <= k < 4 ==> e.calls[k] == CreateOrder(BuyOrder(buyingPower.value * BuyFraction))
  {
    BuyDecision(buyingPower, price);
    RetryableFailuresExhaustBudget(BuyOrder(buyingPower.value * BuyFraction), script, pos, 0);
  }

  /** A 404 from the position lookup means there is nothing to sell: one lookup, no retry. */
  lemma MissingPositionIsNoOp(buyingPower: Option<real>, price: Option<real>, script: seq<Reply>, pos: nat)
    requires ReplyAt(script, pos) == Failed(Some(404))
    ensures ExecuteTradeCalls("SELL", buyingPower, price, script, pos) == Execution([GetPosition(Symbol)], 1)
  {
  }

  /**
   * Call number `k` of `calls`, made with the broker's replies read from `pos` on,
   * is a lookup or a close, and a close exactly when it follows a lookup that
   * found a positive quantity.
   */
  ghost predicate SellCallAt(calls: seq<BrokerCall>, script: seq<Reply>, pos: nat, k: nat)
    requires k < |calls|
  {
    (calls[k] == GetPosition(Symbol) || calls[k] == ClosePosition(Symbol)) &&
    (calls[k] == ClosePosition(Symbol) <==>
      0 < k && calls[k - 1] == GetPosition(Symbol) && IsOpenPosition(script, pos + k - 1))
  }

  /**
   * Every call is as `SellCallAt` says, the first is a lookup, and a lookup that
   * ends the calls found nothing to close.
   */
  ghost predicate SellShape(calls: seq<BrokerCall>, script: seq<Reply>, pos: nat)
  {
    (calls != [] ==> calls[0] == GetPosition(Symbol)) &&
    (calls != [] && calls[|calls| - 1] == GetPosition(Symbol) ==> !IsOpenPosition(script, pos + |calls| - 1)) &&
    forall k :: 0 <= k < |calls| ==> SellCallAt(calls, script, pos, k)
  }

  /** One SELL attempt has that shape, and ends on a close or on a lookup that found nothing to close. */
  lemma SellAttemptShape(script: seq<Reply>, pos: nat)
    ensures var calls := SellAttempt(script, pos).calls;
      SellShape(calls, script, pos) && |calls| >= 1 &&
      (calls[|calls| - 1] == GetPosition(Symbol) ==> !IsOpenPosition(script, pos + |calls| - 1))
  {
    var calls := SellAttempt(script, pos).calls;
    assert SellCallAt(calls, script, pos, 0);
    if |calls| == 2 {
      assert SellCallAt(calls, script, pos, 1);
    }
  }

  /** An attempt of that shape followed by calls of that shape has that shape. */
  lemma SellShapeConcat(first: seq<BrokerCall>, rest: seq<BrokerCall>, script: seq<Reply>, pos: nat)
    requires SellShape(first, script, pos) && |first| >= 1
    requires first[|first| - 1] == GetPosition(Symbol) ==> !IsOpenPosition(script, pos + |first| - 1)
    requires SellShape(rest, script, pos + |first|)
    ensures SellShape(first + rest, script, pos)
  {
    var calls := first + rest;
    assert calls[0] == first[0];
    if rest != [] {
      assert calls[|calls| - 1] == rest[|rest| - 1];
      assert pos + |calls| - 1 == pos + |first| + |rest| - 1;
    } else {
      assert calls == first;
    }
    forall k | 0 <= k < |calls|
      ensures SellCallAt(calls, script, pos, k)
    {
      if k > |first| {
        var k' := k - |first|;
        assert SellCallAt(rest, script, pos + |first|, k');
        assert calls[k] == rest[k'] && calls[k - 1] == rest[k' - 1];
        assert pos + |first| + k' - 1 == pos + k - 1;
      } else if k == |first| {
        assert calls[k] == rest[0] && calls[k - 1] == first[k - 1];
      } else {
        assert SellCallAt(first, script, pos, k);
        assert calls[k] == first[k];
        if 0 < k {
          assert calls[k - 1] == first[k - 1];
        }
      }
    }
  }

  /** A SELL attempt followed by calls of that shape has that shape. */
  lemma SellAttemptThen(script: seq<Reply>, pos: nat, next: nat, rest: seq<BrokerCall>, calls: seq<BrokerCall>)
    requires next == pos + |SellAttempt(script, pos).calls|
    requires SellShape(rest, script, next)
    requires calls == SellAttempt(script, pos).calls + rest
    ensures SellShape(calls, script, pos)
  {
    var first := SellAttempt(script, pos).calls;
    SellAttemptShape(script, pos);
    SellShapeConcat(first, rest, script, pos);
  }

  /** A SELL run, from any attempt on, has the shape of `SellShape`. */
  lemma {:induction false} SellClosesOnlyOpenPositions(script: seq<Reply>, pos: nat, attempt: nat)
    requires attempt <= MaxRetries
    ensures SellShape(Run(SellPosition, script, pos, attempt).calls, script, pos)
    decreases MaxRetries - attempt
  {
    var a := AttemptOnce(SellPosition, script, pos);
    assert a == SellAttempt(script, pos);
    if StopsAfter(a.end, attempt) {
      RunStops(SellPosition, script, pos, attempt);
      SellAttemptThen(script, pos, pos + |a.calls|, [], Run(SellPosition, script, pos, attempt).calls);
    } else {
      RunContinues(SellPosition, script, pos, attempt);
      var next := pos + |a.calls|;
      var rest := Run(SellPosition, script, next, attempt + 1);
      SellClosesOnlyOpenPositions(script, next, attempt + 1);
      SellAttemptThen(script, pos, next, rest.calls, Run(SellPosition, script, pos, attempt).calls);
    }
  }

  /** The calls of a SELL are those of the sell run, whatever the buying power and price. */
  lemma SellIgnoresBuyingPowerAndPrice(buyingPower: Option<real>, price: Option<real>,
                                       buyingPower': Option<real>, price': Option<real>,
                                       script: seq<Reply>, pos: nat)
    ensures ExecuteTradeCalls("SELL", buyingPower, price, script, pos) ==
      ExecuteTradeCalls("SELL", buyingPower', price', script, pos)
  {
  }
}
