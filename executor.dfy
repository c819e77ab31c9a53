/**
 * `executeTrade`: turning a recommendation string into broker calls, with an
 * attempt counter, a retry of the whole action after a failure, and an early
 * stop on the broker errors that repeating cannot fix. The broker is an object
 * that answers from a script of per-call replies and records every call.
 */
module Executor {
  import opened Wrappers
  import Indicators

  const Symbol: string := "BTC/USD"
  const MaxRetries: nat := 3
  /** The share of the buying power that a BUY spends. */
  const BuyFraction: real := 0.9
  /** An order must be worth more than this many dollars. */
  const MinNotional: real := 1.0

  /** The arguments of `createOrder`. */
  datatype Order = Order(symbol: string, notional: real, side: string, orderType: string, timeInForce: string)

  /** One call made to the broker. */
  datatype BrokerCall = CreateOrder(order: Order) | GetPosition(symbol: string) | ClosePosition(symbol: string)

  /**
   * What one broker call gives back: success, a position whose quantity has been
   * parsed (for `getPosition`), or an error with its HTTP `statusCode` if it has
   * one. A successful `getPosition` that returns no object is `Done`.
   */
  datatype Reply = Done | Position(qty: real) | Failed(statusCode: Option<int>)

  /** The reply to the `k`-th call (from 0); past the script the broker is unreachable. */
  function ReplyAt(script: seq<Reply>, k: nat): Reply
  {
    if k < |script| then script[k] else Failed(None)
  }

  /** The broker client: it answers from `script` and records each call in `trace`. */
  class Broker {
    const script: seq<Reply>
    var next: nat
    ghost var trace: seq<BrokerCall>

    constructor (script: seq<Reply>)
      ensures this.script == script && next == 0 && trace == []
    {
      this.script := script;
      next := 0;
      trace := [];
    }

    method CreateOrder(order: Order) returns (reply: Reply)
      modifies this
      ensures reply == ReplyAt(script, old(next))
      ensures next == old(next) + 1 && trace == old(trace) + [BrokerCall.CreateOrder(order)]
    {
      reply := ReplyAt(script, next);
      next := next + 1;
      trace := trace + [BrokerCall.CreateOrder(order)];
    }

    method GetPosition(symbol: string) returns (reply: Reply)
      modifies this
      ensures reply == ReplyAt(script, old(next))
      ensures next == old(next) + 1 && trace == old(trace) + [BrokerCall.GetPosition(symbol)]
    {
      reply := ReplyAt(script, next);
      next := next + 1;
      trace := trace + [BrokerCall.GetPosition(symbol)];
    }

    method ClosePosition(symbol: string) returns (reply: Reply)
      modifies this
      ensures reply == ReplyAt(script, old(next))
      ensures next == old(next) + 1 && trace == old(trace) + [BrokerCall.ClosePosition(symbol)]
    {
      reply := ReplyAt(script, next);
      next := next + 1;
      trace := trace + [BrokerCall.ClosePosition(symbol)];
    }
  }

  /** `!bitcoinPrice` is false: the price is present and not zero. */
  predicate IsTruthyPrice(price: Option<real>)
  {
    price.Some? && price.value != 0.0
  }

  /** A number that is not NaN and is positive (`None` stands for NaN). */
  predicate IsValidBuyingPower(buyingPower: Option<real>)
  {
    buyingPower.Some? && buyingPower.value > 0.0
  }

  /** The market order a BUY places for a given notional. */
  function BuyOrder(notional: real): Order
  {
    Order(Symbol, notional, "buy", "market", "gtc")
  }

  /**
   * What an attempt sets out to do. The checks of the BUY branch read only the
   * arguments of `executeTrade`, so every attempt of one call reaches the same
   * decision; the broker's replies are what differ from attempt to attempt.
   */
  datatype Action = PlaceOrder(order: Order) | SellPosition | NoCall

  /** The branch taken on the recommendation, with the BUY checks and sizing. */
  function ActionFor(recommendation: string, buyingPower: Option<real>, price: Option<real>): Action
  {
    if recommendation == "BUY" then
      if !IsTruthyPrice(price) || !IsValidBuyingPower(buyingPower) then NoCall
      else
        var notional := buyingPower.value * BuyFraction;
        if notional > MinNotional then PlaceOrder(BuyOrder(notional)) else NoCall
    else if recommendation == "SELL" then SellPosition
    else NoCall
  }

  /** How one attempt ends: it returns, or it throws an error with this status code. */
  datatype AttemptEnd = Returned | Threw(statusCode: Option<int>)

  /** The calls one attempt makes and how it ends. */
  datatype Attempt = Attempt(calls: seq<BrokerCall>, end: AttemptEnd)

  /** The inner `catch` of a SELL: a 404 means there is no position, anything else is rethrown. */
  function SellFailure(statusCode: Option<int>): AttemptEnd
  {
    if statusCode == Some(404) then Returned else Threw(statusCode)
  }

  /** Whether the reply at `k` reports a position with a positive quantity. */
  predicate IsOpenPosition(script: seq<Reply>, k: nat)
  {
    ReplyAt(script, k).Position? && ReplyAt(script, k).qty > 0.0
  }

  /** The SELL branch: look the position up and close it if its quantity is positive. */
  function SellAttempt(script: seq<Reply>, pos: nat): Attempt
  {
    var position := ReplyAt(script, pos);
    if position.Failed? then Attempt([GetPosition(Symbol)], SellFailure(position.statusCode))
    else if IsOpenPosition(script, pos) then
      var closed := ReplyAt(script, pos + 1);
      Attempt([GetPosition(Symbol), ClosePosition(Symbol)],
              if closed.Failed? then SellFailure(closed.statusCode) else Returned)
    else Attempt([GetPosition(Symbol)], Returned)
  }

  /** One pass through the body of the `try`, with the broker's replies read from `pos` on. */
  function AttemptOnce(action: Action, script: seq<Reply>, pos: nat): Attempt
  {
    match action
    case PlaceOrder(order) =>
      var reply := ReplyAt(script, pos);
      Attempt([CreateOrder(order)], if reply.Failed? then Threw(reply.statusCode) else Returned)
    case SellPosition => SellAttempt(script, pos)
    case NoCall => Attempt([], Returned)
  }

  /** Status codes on which the executor stops instead of retrying. */
  predicate IsNonRetryable(statusCode: Option<int>)
  {
    statusCode == Some(422) || statusCode == Some(403) || statusCode == Some(401)
  }

  /** Whether the loop ends after attempt number `attempt`, which ended as `end`. */
  predicate StopsAfter(end: AttemptEnd, attempt: nat)
  {
    end.Returned? || attempt == MaxRetries || IsNonRetryable(end.statusCode)
  }

  /** The calls made by all attempts and the number of attempts. */
  datatype Execution = Execution(calls: seq<BrokerCall>, attempts: nat)

  /** The `while (attempt <= maxRetries)` loop from attempt number `attempt` on. */
  function Run(action: Action, script: seq<Reply>, pos: nat, attempt: nat): Execution
    decreases MaxRetries + 1 - attempt
  {
    if attempt > MaxRetries then Execution([], 0)
    else
      var a := AttemptOnce(action, script, pos);
      if StopsAfter(a.end, attempt) then
        Execution(a.calls, 1)
      else
        var rest := Run(action, script, pos + |a.calls|, attempt + 1);
        Execution(a.calls + rest.calls, 1 + rest.attempts)
  }

  /** Everything `executeTrade` does with the broker, from the reply at `pos` on. */
  function ExecuteTradeCalls(recommendation: string, buyingPower: Option<real>, price: Option<real>,
                             script: seq<Reply>, pos: nat): Execution
  {
    Run(ActionFor(recommendation, buyingPower, price), script, pos, 0)
  }

  /** The BUY branch of one attempt. */
  method TryBuy(buyingPower: Option<real>, price: Option<real>, broker: Broker) returns (end: AttemptEnd)
    modifies broker
    ensures var a := AttemptOnce(ActionFor("BUY", buyingPower, price), broker.script, old(broker.next));
      end == a.end && broker.trace == old(broker.trace) + a.calls && broker.next == old(broker.next) + |a.calls|
  {
    if !IsTruthyPrice(price) {
      return Returned;
    }
    if !IsValidBuyingPower(buyingPower) {
      return Returned;
    }
    var notional := buyingPower.value * BuyFraction;
    if notional > MinNotional {
      var reply := broker.CreateOrder(BuyOrder(notional));
      end := if reply.Failed? then Threw(reply.statusCode) else Returned;
    } else {
      end := Returned;
    }
  }

  /** The SELL branch of one attempt, with its inner `catch`. */
  method TrySell(broker: Broker) returns (end: AttemptEnd)
    modifies broker
    ensures var a := SellAttempt(broker.script, old(broker.next));
      end == a.end && broker.trace == old(broker.trace) + a.calls && broker.next == old(broker.next) + |a.calls|
  {
    var position := broker.GetPosition(Symbol);
    if position.Failed? {
      end := SellFailure(position.statusCode);
    } else if position.Position? && position.qty > 0.0 {
      var closed := broker.ClosePosition(Symbol);
      end := if closed.Failed? then SellFailure(closed.statusCode) else Returned;
    } else {
      end := Returned;
    }
  }

  /** The body of the `try` for one attempt: the branch chosen by the recommendation. */
  method TryOnce(recommendation: string, buyingPower: Option<real>, price: Option<real>, broker: Broker)
    returns (end: AttemptEnd)
    modifies broker
    ensures var a := AttemptOnce(ActionFor(recommendation, buyingPower, price), broker.script, old(broker.next));
      end == a.end && broker.trace == old(broker.trace) + a.calls && broker.next == old(broker.next) + |a.calls|
  {
    if recommendation == "BUY" {
      end := TryBuy(buyingPower, price, broker);
    } else if recommendation == "SELL" {
      end := TrySell(broker);
    } else {
      // HOLD, or an unknown recommendation: nothing to do
      end := Returned;
    }
  }

  /**
   * The calls already recorded, `trace` (the reply cursor standing at `pos`), followed by
   * those of the attempts from number `attempt` on, make up the whole execution that
   * started with `trace0` at `next0`.
   */
  ghost predicate Progress(action: Action, script: seq<Reply>, trace0: seq<BrokerCall>, next0: nat,
                           trace: seq<BrokerCall>, pos: nat, attempt: nat)
  {
    var whole := Run(action, script, next0, 0);
    var rest := Run(action, script, pos, attempt);
    trace0 + whole.calls == trace + rest.calls &&
    next0 + |whole.calls| == pos + |rest.calls| &&
    whole.attempts == attempt + rest.attempts
  }

  /** The whole execution that started with `trace0` at `next0` has been recorded, in `attempts` attempts. */
  ghost predicate Finished(action: Action, script: seq<Reply>, trace0: seq<BrokerCall>, next0: nat,
                           trace: seq<BrokerCall>, pos: nat, attempts: nat)
  {
    var whole := Run(action, script, next0, 0);
    trace == trace0 + whole.calls && pos == next0 + |whole.calls| && whole.attempts == attempts
  }

  /** An attempt after which the loop stops completes the whole execution. */
  lemma FinalAttempt(action: Action, script: seq<Reply>, trace0: seq<BrokerCall>, next0: nat,
                     trace: seq<BrokerCall>, pos: nat, attempt: nat, trace': seq<BrokerCall>, pos': nat)
    requires attempt <= MaxRetries
    requires StopsAfter(AttemptOnce(action, script, pos).end, attempt)
    requires Progress(action, script, trace0, next0, trace, pos, attempt)
    requires trace' == trace + AttemptOnce(action, script, pos).calls
    requires pos' == pos + |AttemptOnce(action, script, pos).calls|
    ensures Finished(action, script, trace0, next0, trace', pos', attempt + 1)
  {
  }

  /** The bookkeeping of `Progress` when the remaining execution `r0` is the calls `ac` followed by `r1`. */
  lemma ShiftAttempt(trace0: seq<BrokerCall>, whole: Execution, next0: nat, trace: seq<BrokerCall>, pos: nat,
                     attempt: nat, r0: Execution, ac: seq<BrokerCall>, r1: Execution)
    requires trace0 + whole.calls == trace + r0.calls
    requires next0 + |whole.calls| == pos + |r0.calls|
    requires whole.attempts == attempt + r0.attempts
    requires r0 == Execution(ac + r1.calls, 1 + r1.attempts)
    ensures trace0 + whole.calls == (trace + ac) + r1.calls
    ensures next0 + |whole.calls| == (pos + |ac|) + |r1.calls|
    ensures whole.attempts == (attempt + 1) + r1.attempts
  {
    assert trace + (ac + r1.calls) == (trace + ac) + r1.calls;
  }

  /** `Run` at an attempt that stops the loop: that attempt's calls, in one attempt. */
  lemma RunStops(action: Action, script: seq<Reply>, pos: nat, attempt: nat)
    requires attempt <= MaxRetries
    requires StopsAfter(AttemptOnce(action, script, pos).end, attempt)
    ensures Run(action, script, pos, attempt) == Execution(AttemptOnce(action, script, pos).calls, 1)
  {
  }

  /** `Run` after an attempt that does not stop the loop: that attempt's calls, then the rest. */
  lemma RunContinues(action: Action, script: seq<Reply>, pos: nat, attempt: nat)
    requires attempt <= MaxRetries
    requires !StopsAfter(AttemptOnce(action, script, pos).end, attempt)
    ensures var a := AttemptOnce(action, script, pos);
      var rest := Run(action, script, pos + |a.calls|, attempt + 1);
      Run(action, script, pos, attempt) == Execution(a.calls + rest.calls, 1 + rest.attempts)
  {
  }

  /** An attempt after which the loop goes on leaves the rest of the execution to the next one. */
  lemma NextAttempt(action: Action, script: seq<Reply>, trace0: seq<BrokerCall>, next0: nat,
                    trace: seq<BrokerCall>, pos: nat, attempt: nat, trace': seq<BrokerCall>, pos': nat)
    requires attempt <= MaxRetries
    requires !StopsAfter(AttemptOnce(action, script, pos).end, attempt)
    requires Progress(action, script, trace0, next0, trace, pos, attempt)
    requires trace' == trace + AttemptOnce(action, script, pos).calls
    requires pos' == pos + |AttemptOnce(action, script, pos).calls|
    ensures Progress(action, script, trace0, next0, trace', pos', attempt + 1)
  {
    RunContinues(action, script, pos, attempt);
    var a := AttemptOnce(action, script, pos);
    ShiftAttempt(trace0, Run(action, script, next0, 0), next0, trace, pos, attempt,
                 Run(action, script, pos, attempt), a.calls, Run(action, script, pos', attempt + 1));
  }

  /** Past the last attempt nothing remains: the recorded calls are the whole execution. */
  lemma Exhausted(action: Action, script: seq<Reply>, trace0: seq<BrokerCall>, next0: nat,
                  trace: seq<BrokerCall>, pos: nat, attempt: nat)
    requires MaxRetries < attempt
    requires Progress(action, script, trace0, next0, trace, pos, attempt)
    ensures Finished(action, script, trace0, next0, trace, pos, attempt)
  {
    assert trace + Run(action, script, pos, attempt).calls == trace;
  }

  /** One iteration of the retry loop: an attempt, and whether the loop stops after it. */
  method Step(recommendation: string, buyingPower: Option<real>, price: Option<real>, broker: Broker,
              ghost action: Action, ghost trace0: seq<BrokerCall>, ghost next0: nat,
              ghost trace: seq<BrokerCall>, ghost pos: nat, attempt: nat)
    returns (stop: bool, ghost trace': seq<BrokerCall>, ghost pos': nat)
    requires action == ActionFor(recommendation, buyingPower, price)
    requires attempt <= MaxRetries
    requires broker.next == pos && broker.trace == trace
    requires Progress(action, broker.script, trace0, next0, trace, pos, attempt)
    modifies broker
    ensures broker.next == pos' && broker.trace == trace'
    ensures stop == StopsAfter(AttemptOnce(action, broker.script, pos).end, attempt)
    ensures stop ==> Finished(action, broker.script, trace0, next0, trace', pos', attempt + 1)
    ensures !stop ==> Progress(action, broker.script, trace0, next0, trace', pos', attempt + 1)
  {
    var end := TryOnce(recommendation, buyingPower, price, broker);
    trace', pos' := broker.trace, broker.next;
    stop := StopsAfter(end, attempt);
    if stop {
      FinalAttempt(action, broker.script, trace0, next0, trace, pos, attempt, trace', pos');
    } else {
      NextAttempt(action, broker.script, trace0, next0, trace, pos, attempt, trace', pos');
    }
  }

  /**
   * `executeTrade`. It never throws: every failure ends in a return. The calls it
   * makes, and the number of attempts, are those of `ExecuteTradeCalls` from the
   * broker's current position in its script.
   */
  method ExecuteTrade(recommendation: string, buyingPower: Option<real>, indicators: Indicators.Snapshot,
                      broker: Broker)
    returns (ghost attempts: nat)
    modifies broker
    ensures var e := ExecuteTradeCalls(recommendation, buyingPower, indicators.currentPrice, broker.script, old(broker.next));
      broker.trace == old(broker.trace) + e.calls && broker.next == old(broker.next) + |e.calls| &&
      attempts == e.attempts
  {
    var bitcoinPrice := indicators.currentPrice;
    ghost var action := ActionFor(recommendation, buyingPower, bitcoinPrice);
    ghost var trace0, next0 := broker.trace, broker.next;
    ghost var pos, trace := next0, trace0;
    attempts := 0;
    var attempt := 0;
    while attempt <= MaxRetries
      invariant attempt <= MaxRetries + 1 && attempts == attempt
      invariant broker.next == pos && broker.trace == trace
      invariant Progress(action, broker.script, trace0, next0, trace, pos, attempt)
      decreases MaxRetries + 1 - attempt
    {
      attempts := attempt + 1;
      var stop;
      stop, trace, pos := Step(recommendation, buyingPower, bitcoinPrice, broker, action, trace0, next0, trace, pos, attempt);
      if stop {
        return;
      }
      attempt := attempt + 1;
    }
    Exhausted(action, broker.script, trace0, next0, trace, pos, attempt);
  }
}
