/**
 * The call to the text-generation model in `getTradingRecommendation` and its
 * retry policy. The model client is a scripted sequence of outcomes, one per
 * `generateContent` call; the waits between retries are counted, not timed.
 */
module Recommendation {
  import opened Wrappers
  import opened Signal

  /** What one `generateContent` call gives: the reply text, or an error with its `status`. */
  datatype GenOutcome = Reply(text: string) | GenError(status: Option<int>)

  const MaxRetries: nat := 3
  const ServiceUnavailable: int := 503

  /**
   * The outcome of the `k`-th call (from 0). A script that has run out stands for
   * a client that keeps failing without a status.
   */
  function OutcomeAt(script: seq<GenOutcome>, k: nat): GenOutcome
  {
    if k < |script| then script[k] else GenError(None)
  }

  predicate IsServiceUnavailable(o: GenOutcome)
  {
    o.GenError? && o.status == Some(ServiceUnavailable)
  }

  /**
   * How a call of `getTradingRecommendation` ends: the reply whose text gives the
   * signal (none when the result is the HOLD default), the number of model calls
   * and the number of waits before retries.
   */
  datatype Recommended = Recommended(reply: Option<string>, calls: nat, waits: nat)

  /** The recommendation returned: the signal of the deciding reply, and HOLD without one. */
  function SignalOf(o: Recommended): Signal
  {
    if o.reply.Some? then ExtractSignal(o.reply.value) else Hold
  }

  /**
   * The number of model calls made in all when the 503 retries are at retry number
   * `i` (from 0): each retry waits and calls again, and the retries stop at the
   * first reply or after the last retry.
   */
  function RetryCalls(script: seq<GenOutcome>, i: nat): (n: nat)
    requires i < MaxRetries
    ensures 2 + i <= n <= MaxRetries + 1
    ensures OutcomeAt(script, n - 1).Reply? || n == MaxRetries + 1
    ensures forall k :: 1 + i <= k < n - 1 ==> OutcomeAt(script, k).GenError?
    decreases MaxRetries - i
  {
    if OutcomeAt(script, 1 + i).Reply? || i == MaxRetries - 1 then 2 + i
    else RetryCalls(script, i + 1)
  }

  /** The text of the reply to call number `k`, if that call succeeded. */
  function ReplyText(script: seq<GenOutcome>, k: nat): Option<string>
  {
    var o := OutcomeAt(script, k);
    if o.Reply? then Some(o.text) else None
  }

  /**
   * How `getTradingRecommendation` ends, with the 503 retry resending the prompt
   * as the code evidently intends. `promptBuilt` is false when building the
   * prompt throws (the indicators have no historical series or no OHLC data),
   * before any call; that error has no `status`, so it gives HOLD.
   */
  function Recommend(promptBuilt: bool, script: seq<GenOutcome>): Recommended
  {
    if !promptBuilt then Recommended(None, 0, 0)
    else
      var first := OutcomeAt(script, 0);
      if first.Reply? then Recommended(Some(first.text), 1, 0)
      else if IsServiceUnavailable(first) then
        var n := RetryCalls(script, 0);
        Recommended(ReplyText(script, n - 1), n, n - 1)
      else Recommended(None, 1, 0)
  }

  /**
   * `getTradingRecommendation`, with the retry resending the prompt. Every path
   * of the source returns the signal of the reply it stops at, or HOLD; here the
   * paths record that reply and the signal is extracted once, at the end.
   */
  method GetTradingRecommendation(promptBuilt: bool, script: seq<GenOutcome>)
    returns (r: Signal, calls: nat, waits: nat)
    ensures var o := Recommend(promptBuilt, script);
      r == SignalOf(o) && calls == o.calls && waits == o.waits
  {
    calls, waits := 0, 0;
    var decisive: Option<string> := None;
    if promptBuilt {
      var first := OutcomeAt(script, calls);
      calls := calls + 1;
      if first.Reply? {
        decisive := Some(first.text);
      } else if IsServiceUnavailable(first) {
        for i := 0 to MaxRetries
          invariant calls == i + 1 && waits == i && decisive.None?
          invariant i < MaxRetries ==> RetryCalls(script, i) == RetryCalls(script, 0)
          invariant i == MaxRetries ==> Recommend(promptBuilt, script) == Recommended(None, calls, waits)
        {
          waits := waits + 1;
          var retry := OutcomeAt(script, calls);
          calls := calls + 1;
          if retry.Reply? {
            decisive := Some(retry.text);
            break;
          }
          if i == MaxRetries - 1 {
            // the last retry failed: HOLD
            break;
          }
        }
      }
    }
    assert Recommend(promptBuilt, script) == Recommended(decisive, calls, waits);
    r := if decisive.Some? then ExtractSignal(decisive.value) else Hold;
  }

  // What the retry policy guarantees

  /** At most four model calls, and a wait before every call but the first. */
  lemma CallBudget(promptBuilt: bool, script: seq<GenOutcome>)
    ensures var o := Recommend(promptBuilt, script);
      o.calls <= MaxRetries + 1 && o.waits == (if o.calls == 0 then 0 else o.calls - 1)
  {
  }

  /** A prompt that cannot be built gives HOLD without calling the model. */
  lemma NoPromptNoCall(script: seq<GenOutcome>)
    ensures Recommend(false, script) == Recommended(None, 0, 0) && SignalOf(Recommend(false, script)) == Hold
  {
  }

  /** A first reply is used as it is: one call, its signal. */
  lemma FirstReplyIsUsed(script: seq<GenOutcome>)
    requires OutcomeAt(script, 0).Reply?
    ensures Recommend(true, script) == Recommended(Some(OutcomeAt(script, 0).text), 1, 0)
    ensures SignalOf(Recommend(true, script)) == ExtractSignal(OutcomeAt(script, 0).text)
  {
  }

  /** Only a first failure with status 503 is retried: any other gives HOLD after one call. */
  lemma OnlyServiceUnavailableRetries(script: seq<GenOutcome>)
    requires OutcomeAt(script, 0).GenError?
    ensures Recommend(true, script).calls > 1 <==> IsServiceUnavailable(OutcomeAt(script, 0))
    ensures !IsServiceUnavailable(OutcomeAt(script, 0)) ==>
      Recommend(true, script) == Recommended(None, 1, 0) && SignalOf(Recommend(true, script)) == Hold
  {
  }

  /**
   * After a first 503 the retries end at the first reply, which decides; every
   * call before it failed, whatever its status. Four failures give HOLD.
   */
  lemma ServiceUnavailableRetries(script: seq<GenOutcome>)
    requires IsServiceUnavailable(OutcomeAt(script, 0))
    ensures var o := Recommend(true, script);
      2 <= o.calls && (forall k :: 0 <= k < o.calls - 1 ==> OutcomeAt(script, k).GenError?) &&
      if OutcomeAt(script, o.calls - 1).Reply? then o.reply == Some(OutcomeAt(script, o.calls - 1).text)
      else o.calls == MaxRetries + 1 && o.reply == None
  {
  }

  /** The deciding reply is one the model actually gave, on the last call made. */
  lemma DecidingReplyIsLastCall(promptBuilt: bool, script: seq<GenOutcome>)
    ensures var o := Recommend(promptBuilt, script);
      o.reply.Some? ==> 1 <= o.calls && OutcomeAt(script, o.calls - 1) == Reply(o.reply.value)
  {
  }

  /** Anything but HOLD is the signal of a reply the model actually gave. */
  lemma TradeSignalComesFromAReply(promptBuilt: bool, script: seq<GenOutcome>)
    ensures var o := Recommend(promptBuilt, script);
      SignalOf(o) != Hold ==>
        exists k :: 0 <= k < o.calls && OutcomeAt(script, k).Reply? && ExtractSignal(OutcomeAt(script, k).text) == SignalOf(o)
  {
    var o := Recommend(promptBuilt, script);
    DecidingReplyIsLastCall(promptBuilt, script);
    if SignalOf(o) != Hold {
      assert OutcomeAt(script, o.calls - 1).text == o.reply.value;
    }
  }

  // The retry as written

  /**
   * How `getTradingRecommendation` ends as written: `prompt` is declared inside
   * the `try` block, so a retry in the `catch` block cannot see it and fails with
   * a reference error before calling the model.
   */
  function RecommendAsWritten(promptBuilt: bool, script: seq<GenOutcome>): Recommended
  {
    if !promptBuilt then Recommended(None, 0, 0)
    else
      var first := OutcomeAt(script, 0);
      if first.Reply? then Recommended(Some(first.text), 1, 0)
      else if IsServiceUnavailable(first) then Recommended(None, 1, MaxRetries)
      else Recommended(None, 1, 0)
  }

  /** `getTradingRecommendation` as written. */
  method GetTradingRecommendationAsWritten(promptBuilt: bool, script: seq<GenOutcome>)
    returns (r: Signal, calls: nat, waits: nat)
    ensures var o := RecommendAsWritten(promptBuilt, script);
      r == SignalOf(o) && calls == o.calls && waits == o.waits
  {
    calls, waits := 0, 0;
    var decisive: Option<string> := None;
    if promptBuilt {
      var first := OutcomeAt(script, calls);
      calls := calls + 1;
      if first.Reply? {
        decisive := Some(first.text);
      } else if IsServiceUnavailable(first) {
        for i := 0 to MaxRetries
          invariant calls == 1 && waits == i && decisive.None?
        {
          waits := waits + 1;
          // evaluating the argument `prompt` throws: the call is never made
          if i == MaxRetries - 1 {
            break;
          }
        }
      }
    }
    assert RecommendAsWritten(promptBuilt, script) == Recommended(decisive, calls, waits);
    r := if decisive.Some? then ExtractSignal(decisive.value) else Hold;
  }

  /** As written, a first 503 always ends in HOLD after three waits and no second call. */
  lemma AsWrittenNeverRecovers(script: seq<GenOutcome>)
    requires IsServiceUnavailable(OutcomeAt(script, 0))
    ensures RecommendAsWritten(true, script) == Recommended(None, 1, MaxRetries)
    ensures SignalOf(RecommendAsWritten(true, script)) == Hold
  {
  }

  /** The two versions agree except after a first 503. */
  lemma AsWrittenAgreesWithoutServiceUnavailable(promptBuilt: bool, script: seq<GenOutcome>)
    requires !promptBuilt || !IsServiceUnavailable(OutcomeAt(script, 0))
    ensures RecommendAsWritten(promptBuilt, script) == Recommend(promptBuilt, script)
  {
  }

  /** A reply that is just the word of a signal yields that signal. */
  lemma ExtractBareWord(s: Signal)
    ensures ExtractSignal(Word(s)) == s
  {
    var raw := Word(s);
    TrimUnchanged(raw);
    assert ToUpper(raw) == raw;
    SpelledAt(raw, 0, s);
    LeftmostTokenIsFound(raw, 0, s);
  }

  /**
   * The script that tells the two versions apart: a 503, then a reply "BUY".
   * As written the answer is HOLD; resending the prompt gives BUY.
   */
  lemma RetryFindingWitness()
    ensures var script := [GenError(Some(ServiceUnavailable)), Reply("BUY")];
      SignalOf(RecommendAsWritten(true, script)) == Hold && SignalOf(Recommend(true, script)) == Buy
  {
    var script := [GenError(Some(ServiceUnavailable)), Reply("BUY")];
    assert OutcomeAt(script, 1) == Reply(Word(Buy));
    assert Recommend(true, script).reply == Some(Word(Buy));
    ExtractBareWord(Buy);
  }
}
