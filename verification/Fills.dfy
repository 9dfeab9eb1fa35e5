/** The division-free price check and the fold of one settlement into an order's totals. */
module Fills {
  import opened Basics
  import opened Intent
  import opened OrderAccounts

  /** A product of two `u64` computed in 128 bits: it never overflows. */
  function Product(x: U64, y: U64): (p: nat)
    ensures p == x * y && p <= U64_MAX * U64_MAX < 0x1_0000_0000_0000_0000_0000_0000_0000_0000
  {
    ProductBound(x, y);
    x * y
  }

  lemma ProductBound(x: U64, y: U64)
    ensures 0 <= x * y <= U64_MAX * U64_MAX
  {
    assert x * (U64_MAX - y) >= 0;
    assert (U64_MAX - x) * U64_MAX >= 0;
  }

  /** The executed price of this settlement against the limit. */
  function ValidateLimitPrice(intent: OrderIntent, amountIn: U64, amountOut: U64): (r: Result<()>)
    ensures r.Ok? <==> amountOut * intent.sellAmount >= amountIn * intent.buyAmount
  {
    if Product(amountOut, intent.sellAmount) < Product(amountIn, intent.buyAmount)
    then Err(LimitPriceViolated) else Ok(())
  }

  /** The filled side of an order and the amount it asks for. */
  function FillProgress(intent: OrderIntent, withdrawn: U64, received: U64): (p: (U64, Amount))
  {
    match intent.flags.kind
    case Sell => (withdrawn, intent.sellAmount)
    case Buy => (received, intent.buyAmount)
  }

  /** Fold this settlement into the cumulative totals and check the result. */
  function FinalAmounts(intent: OrderIntent, withdrawn: U64, received: U64, amountIn: U64, amountOut: U64)
    : (r: Result<(U64, U64)>)
  {
    if withdrawn + amountIn > U64_MAX then Err(AmountWithdrawnOverflow) else
    if received + amountOut > U64_MAX then Err(AmountReceivedOverflow) else
    var totals := (withdrawn + amountIn, received + amountOut);
    var (filled, wanted) := FillProgress(intent, totals.0, totals.1);
    if filled != wanted && !intent.flags.partiallyFillable then Err(OrderNotExactlyFilled)
    else if filled > wanted then Err(FillExceedsOrderAmount)
    else Ok(totals)
  }

  /** One settlement of an order: price check, then fold. */
  function Fill(b: OrderBody, amountIn: U64, amountOut: U64): (r: Result<OrderBody>)
  {
    var _ :- ValidateLimitPrice(b.intent, amountIn, amountOut);
    var totals :- FinalAmounts(b.intent, b.withdrawn, b.received, amountIn, amountOut);
    Ok(b.(withdrawn := totals.0, received := totals.1))
  }

  /** What a settlement of `amountIn` for `amountOut` must meet: the limit price, totals that fit, and
      an exact side that stays within its amount, or reaches it if the order is fill-or-kill. */
  ghost predicate Acceptable(intent: OrderIntent, withdrawn: U64, received: U64, amountIn: U64, amountOut: U64)
  {
    && amountOut * intent.sellAmount >= amountIn * intent.buyAmount
    && withdrawn + amountIn <= U64_MAX && received + amountOut <= U64_MAX
    && match (intent.flags.kind, intent.flags.partiallyFillable)
       case (Sell, true) => withdrawn + amountIn <= intent.sellAmount
       case (Sell, false) => withdrawn + amountIn == intent.sellAmount
       case (Buy, true) => received + amountOut <= intent.buyAmount
       case (Buy, false) => received + amountOut == intent.buyAmount
  }

  /** A settlement is accepted exactly when it meets that, and then adds to both totals. */
  lemma FillExact(b: OrderBody, amountIn: U64, amountOut: U64)
    ensures Fill(b, amountIn, amountOut).Ok? <==> Acceptable(b.intent, b.withdrawn, b.received, amountIn, amountOut)
    ensures Fill(b, amountIn, amountOut).Ok? ==>
      Fill(b, amountIn, amountOut).value == b.(withdrawn := b.withdrawn + amountIn, received := b.received + amountOut)
  {}

  // ---------------------------------------------------------------------------------------
  // What every account keeps
  // ---------------------------------------------------------------------------------------

  /** The exact side of an order is at most its amount, the cumulative price is at least the
      limit, and a fill-or-kill order's exact side is either untouched or complete. */
  ghost predicate WithinLimits(b: OrderBody)
  {
    var (filled, wanted) := FillProgress(b.intent, b.withdrawn, b.received);
    && b.received * b.intent.sellAmount >= b.withdrawn * b.intent.buyAmount
    && filled <= wanted
    && (!b.intent.flags.partiallyFillable ==> filled == 0 || filled == wanted)
  }

  /** For both kinds, no more than the sell amount is ever withdrawn. For a buy order the
      program never checks this: it follows from the price bound and the bought amount. */
  lemma NeverOversold(b: OrderBody)
    requires WithinLimits(b)
    ensures b.withdrawn <= b.intent.sellAmount
  {
    if b.intent.flags.kind.Buy? {
      var buy: int, sell: int := b.intent.buyAmount, b.intent.sellAmount;
      assert b.received * sell <= buy * sell;
      CancelFactor(b.withdrawn, sell, buy);
    }
  }

  lemma CancelFactor(x: int, y: int, c: int)
    requires c > 0 && x * c <= y * c
    ensures x <= y
  {}

  /** Prices add up: settlements each at or above the limit are together at or above it. */
  lemma PricesAddUp(sell: nat, buy: nat, in1: nat, out1: nat, in2: nat, out2: nat)
    requires out1 * sell >= in1 * buy && out2 * sell >= in2 * buy
    ensures (out1 + out2) * sell >= (in1 + in2) * buy
  {
    assert (out1 + out2) * sell == out1 * sell + out2 * sell;
    assert (in1 + in2) * buy == in1 * buy + in2 * buy;
  }

  lemma FillKeepsLimits(b: OrderBody, amountIn: U64, amountOut: U64)
    requires WithinLimits(b) && Fill(b, amountIn, amountOut).Ok?
    ensures WithinLimits(Fill(b, amountIn, amountOut).value)
  {
    PricesAddUp(b.intent.sellAmount, b.intent.buyAmount, b.withdrawn, b.received, amountIn, amountOut);
  }

  /** Once a fill-or-kill order was filled, every later settlement of it moves nothing on the
      exact side and withdraws nothing. */
  lemma FilledOnce(b: OrderBody, amountIn: U64, amountOut: U64)
    requires WithinLimits(b) && !b.intent.flags.partiallyFillable
    requires FillProgress(b.intent, b.withdrawn, b.received).0 > 0
    requires Fill(b, amountIn, amountOut).Ok?
    ensures amountIn == 0
    ensures b.intent.flags.kind.Buy? ==> amountOut == 0
  {
    if b.intent.flags.kind.Buy? {
      assert amountOut == 0;
      CancelFactor(amountIn, 0, b.intent.buyAmount);
    }
  }

  /** Filling a fresh order in full at its own limit passes both checks, whatever its kind and
      fill mode. */
  lemma FullFillAccepted(b: OrderBody)
    requires b.withdrawn == 0 && b.received == 0
    ensures Fill(b, b.intent.sellAmount, b.intent.buyAmount)
         == Ok(b.(withdrawn := b.intent.sellAmount, received := b.intent.buyAmount))
  {
    assert b.intent.buyAmount * b.intent.sellAmount == b.intent.sellAmount * b.intent.buyAmount;
  }
}
