/**
 * The fee breakdown (src/components/sweep/fee-breakdown.tsx): the effect
 * that fetches a quote whenever its inputs change, and the order in which
 * the component decides what to render.
 *
 * `fetchQuote` is split at its `await`: `BeginQuote` runs up to the
 * request, `FinishQuote` is the `try`/`catch`/`finally` after the reply,
 * which is an input. The `onQuoteChange` calls each half makes are returned
 * in order.
 */
module FeeBreakdown {
  import opened Wrappers
  import Decimal
  import Http
  import Api
  import Chains

  const BackendUnreachableText: string := "Failed to get quote. Is the backend running?"

  /** The guard of `fetchQuote`: a connected address, a destination and a non-zero balance. */
  predicate Gated(address: Option<string>, destinationAddress: string, balance: nat)
  {
    address.None? || address.value == "" || destinationAddress == "" || balance == 0
  }

  /** The error text the `catch` stores: an `ApiError`'s message, else the fixed text. */
  function FailureText(e: Http.Failure): (text: string)
    ensures e.StatusError? ==> text == e.message
    ensures !e.StatusError? ==> text == BackendUnreachableText
  {
    if e.StatusError? then e.message else BackendUnreachableText
  }

  /** Every failure of the quote request leaves a non-empty error text. */
  lemma FailureTextShown(reply: Http.Exchange<Api.QuoteResponse>)
    requires !Http.Delivers(reply)
    ensures FailureText(Http.Receive(reply).error) != ""
  {
  }

  /** What the component renders. */
  datatype FeeView =
    | GettingQuote
    | QuoteError(message: string)
    | Nothing
    | Amounts(balance: nat, fee: int, receive: int, feeUsd: Option<string>)
    | RenderThrows  // `BigInt(...)` rejects the quote's amount text

  /** The render: loading first, then a (non-empty) error, then no quote, then the amounts. */
  function View(isLoading: bool, error: Option<string>, quote: Option<Api.QuoteResponse>, balance: nat): (v: FeeView)
    ensures isLoading <==> v.GettingQuote?
    ensures v.QuoteError? <==> !isLoading && error.Some? && error.value != ""
    ensures v.QuoteError? ==> v.message == error.value
    ensures v.Nothing? <==> !isLoading && (error.None? || error.value == "") && quote.None?
    ensures v.Amounts? ==> (quote.Some? &&
      Decimal.ParseBigInt(quote.value.fee) == Some(v.fee) &&
      Decimal.ParseBigInt(quote.value.estimatedReceive) == Some(v.receive) &&
      v.balance == balance)
    ensures v.RenderThrows? ==> (quote.Some? &&
      (Decimal.ParseBigInt(quote.value.fee).None? || Decimal.ParseBigInt(quote.value.estimatedReceive).None?))
  {
    if isLoading then GettingQuote
    else if error.Some? && error.value != "" then QuoteError(error.value)
    else if quote.None? then Nothing
    else
      var fee := Decimal.ParseBigInt(quote.value.fee);
      var receive := Decimal.ParseBigInt(quote.value.estimatedReceive);
      if fee.None? || receive.None? then RenderThrows
      else Amounts(balance, fee.value, receive.value,
                     if quote.value.feeUsd != "" then Some(quote.value.feeUsd) else None)
  }

  class Breakdown {
    var quote: Option<Api.QuoteResponse>
    var isLoading: bool
    var error: Option<string>

    constructor ()
      ensures quote == None && !isLoading && error == None
    {
      quote := None;
      isLoading := false;
      error := None;
    }

    /**
     * `fetchQuote` up to the `await`: a gated call clears the quote and
     * reports `null` without a request; otherwise loading starts, the
     * error is cleared and `POST /quote` goes out for this chain, user and
     * destination.
     */
    method BeginQuote(selectedChain: Chains.ChainId, address: Option<string>, destinationAddress: string, balance: nat)
      returns (request: Option<Api.Call>, notified: seq<Option<Api.QuoteResponse>>)
      modifies this
      ensures Gated(address, destinationAddress, balance) ==>
        request == None && notified == [None] &&
        quote == None && isLoading == old(isLoading) && error == old(error)
      ensures !Gated(address, destinationAddress, balance) ==>
        request == Some(Api.QuoteCall(Api.QuoteRequest(selectedChain, address.value, destinationAddress))) &&
        notified == [] && quote == old(quote) && isLoading && error == None
    {
      if address.None? || address.value == "" || destinationAddress == "" || balance == 0 {
        quote := None;
        notified := [None];
        request := None;
        return;
      }
      isLoading := true;
      error := None;
      notified := [];
      request := Some(Api.QuoteCall(Api.QuoteRequest(selectedChain, address.value, destinationAddress)));
    }

    /**
     * `fetchQuote` after the reply: a quote is stored and reported; a
     * failure stores its text, clears the quote and reports `null`; loading
     * ends either way.
     */
    method FinishQuote(reply: Http.Exchange<Api.QuoteResponse>) returns (notified: seq<Option<Api.QuoteResponse>>)
      modifies this
      ensures !isLoading
      ensures Http.Delivers(reply) ==>
        quote == Some(reply.body.value) && notified == [quote] && error == old(error)
      ensures !Http.Delivers(reply) ==>
        quote == None && notified == [None] && error == Some(FailureText(Http.Receive(reply).error))
    {
      var r := Http.Receive(reply);
      if r.Success? {
        quote := Some(r.value);
        notified := [quote];
      } else {
        error := Some(FailureText(r.error));
        quote := None;
        notified := [None];
      }
      isLoading := false;
    }

    /** The whole effect, with the request answered by `reply`. */
    method FetchQuote(selectedChain: Chains.ChainId, address: Option<string>, destinationAddress: string,
                      balance: nat, reply: Http.Exchange<Api.QuoteResponse>)
      returns (request: Option<Api.Call>, notified: seq<Option<Api.QuoteResponse>>)
      modifies this
      ensures request.Some? <==> !Gated(address, destinationAddress, balance)
      ensures !Gated(address, destinationAddress, balance) ==>
        request == Some(Api.QuoteCall(Api.QuoteRequest(selectedChain, address.value, destinationAddress)))
      ensures Gated(address, destinationAddress, balance) ==>
        notified == [None] && quote == None && isLoading == old(isLoading) && error == old(error)
      ensures !Gated(address, destinationAddress, balance) ==> notified == [quote] && !isLoading
      ensures !Gated(address, destinationAddress, balance) && Http.Delivers(reply) ==>
        quote == Some(reply.body.value) && error == None
      ensures !Gated(address, destinationAddress, balance) && !Http.Delivers(reply) ==>
        quote == None && error == Some(FailureText(Http.Receive(reply).error))
      ensures !Gated(address, destinationAddress, balance) && !Http.Delivers(reply) ==>
        View(isLoading, error, quote, balance) == QuoteError(FailureText(Http.Receive(reply).error))
    {
      request, notified := BeginQuote(selectedChain, address, destinationAddress, balance);
      if request.Some? {
        notified := FinishQuote(reply);
      }
    }
  }

  /** While the request is out the spinner wins over any stale error or quote. */
  lemma LoadingWins(error: Option<string>, quote: Option<Api.QuoteResponse>, balance: nat)
    ensures View(true, error, quote, balance) == GettingQuote
  {
  }

  /**
   * The amounts shown are the quote's own `fee` and `estimatedReceive`
   * read as integers, without any arithmetic on them.
   */
  lemma ShowsQuotedAmounts(q: Api.QuoteResponse, balance: nat, fee: nat, receive: nat)
    requires q.fee == Decimal.Show(fee) && q.estimatedReceive == Decimal.Show(receive)
    ensures View(false, None, Some(q), balance) ==
      Amounts(balance, fee, receive, if q.feeUsd != "" then Some(q.feeUsd) else None)
  {
    Decimal.ParseShow(fee);
    Decimal.ParseShow(receive);
  }

  /** A backend that answers with an error status shows that status's error message. */
  lemma StatusErrorShown(status: nat, body: Http.Json<Api.QuoteResponse>, balance: nat)
    requires !Http.IsOk(status)
    ensures View(false, Some(FailureText(Http.Receive(Http.Answered(status, body)).error)), None, balance) ==
      QuoteError(Http.ErrorText(status, body))
  {
  }
}
