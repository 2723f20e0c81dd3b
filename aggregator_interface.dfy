/** src/aggregators/AggregatorInterface.ts: the common shape every quote
    adapter returns. */
module AggregatorInterface {
  import opened Common

  /** `GetAmountOutResponse`. The amount is an opaque decimal string; OpenOcean
      and Kyber leave the `aggregator` tag out, hence the option. */
  datatype QuoteResult = QuoteResult(amountOut: string, aggregator: Option<string>)

  /** One `GetAmountOut` call: what it returned or threw, and the outbound
      calls it made, in order. */
  datatype AdapterRun = AdapterRun(result: Result<QuoteResult, Error>, calls: seq<Outbound>)

  /** An outbound quote call whose outcome is `resp`, projected onto the
      common shape by `project`. */
  function Project<R>(resp: Result<R, Error>, project: R -> QuoteResult): (r: Result<QuoteResult, Error>)
    ensures resp.Err? ==> r == Err(resp.error)
    ensures resp.Ok? ==> r == Ok(project(resp.value))
  {
    match resp
    case Err(e) => Err(e)
    case Ok(v) => Ok(project(v))
  }
}
