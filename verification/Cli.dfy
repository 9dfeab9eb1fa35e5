/** The settle CLI's self-funding check, against a simulation of the settlement it builds. */
module Cli {
  import opened Basics
  import opened Intent
  import opened OrderAccounts
  import opened Fills
  import opened SettleBuild

  /** What the tallies read of an order: both mints and both amounts. */
  datatype Trade = Trade(sellMint: Address, sellAmount: Amount, buyMint: Address, buyAmount: Amount)

  datatype Leg = Leg(mint: Address, amount: U64)

  function SellLegs(trades: seq<Trade>): (legs: seq<Leg>)
    ensures |legs| == |trades|
  {
    seq(|trades|, i requires 0 <= i < |trades| => Leg(trades[i].sellMint, trades[i].sellAmount))
  }

  function BuyLegs(trades: seq<Trade>): (legs: seq<Leg>)
    ensures |legs| == |trades|
  {
    seq(|trades|, i requires 0 <= i < |trades| => Leg(trades[i].buyMint, trades[i].buyAmount))
  }

  // ---------------------------------------------------------------------------------------
  // The check
  // ---------------------------------------------------------------------------------------

  /** Add one leg to a tally; the first one of a mint is inserted as is. */
  function TallyLeg(tally: map<Address, nat>, leg: Leg): (r: Result<map<Address, nat>>)
  {
    if leg.mint !in tally then Ok(tally[leg.mint := leg.amount]) else
    if tally[leg.mint] + leg.amount > U64_MAX then Err(TallyOverflow)
    else Ok(tally[leg.mint := tally[leg.mint] + leg.amount])
  }

  function TallyAll(tally: map<Address, nat>, legs: seq<Leg>): (r: Result<map<Address, nat>>)
    decreases |legs|
  {
    if legs == [] then Ok(tally) else
    var next :- TallyLeg(tally, legs[0]);
    TallyAll(next, legs[1..])
  }

  /** Every mint pushed out is covered by what is pulled in. */
  predicate CowBalanced(pulled: map<Address, nat>, pushed: map<Address, nat>)
  {
    forall mint | mint in pushed :: Get(pulled, mint) >= pushed[mint]
  }

  /** The tallies and the check, as the CLI runs them: both sides of each order in turn. */
  method PrepareSettlement(trades: seq<Trade>) returns (r: Result<()>)
    ensures r.Ok? <==>
      var pulled, pushed := TallyAll(map[], SellLegs(trades)), TallyAll(map[], BuyLegs(trades));
      pulled.Ok? && pushed.Ok? && CowBalanced(pulled.value, pushed.value)
    ensures r.Ok? <==> Simulate(trades).Ok?
  {
    var pulled: map<Address, nat>, pushed: map<Address, nat> := map[], map[];
    ghost var sells, buys := SellLegs(trades), BuyLegs(trades);
    CheckMatchesSimulation(trades);
    for i := 0 to |trades|
      invariant TallyAll(map[], sells) == TallyAll(pulled, sells[i..])
      invariant TallyAll(map[], buys) == TallyAll(pushed, buys[i..])
    {
      assert sells[i..][0] == sells[i] && sells[i..][1..] == sells[i + 1..];
      assert buys[i..][0] == buys[i] && buys[i..][1..] == buys[i + 1..];
      var nextPulled := TallyLeg(pulled, Leg(trades[i].sellMint, trades[i].sellAmount));
      if nextPulled.Err? {
        return Err(nextPulled.error);
      }
      var nextPushed := TallyLeg(pushed, Leg(trades[i].buyMint, trades[i].buyAmount));
      if nextPushed.Err? {
        return Err(nextPushed.error);
      }
      pulled, pushed := nextPulled.value, nextPushed.value;
    }
    if !CowBalanced(pulled, pushed) {
      return Err(NotSelfFunding);
    }
    return Ok(());
  }

  // ---------------------------------------------------------------------------------------
  // The simulation
  // ---------------------------------------------------------------------------------------

  /** Pull every leg into its mint's buffer; a buffer holds at most a `u64`. */
  function Deposit(buffers: map<Address, nat>, legs: seq<Leg>): (r: Result<map<Address, nat>>)
    decreases |legs|
  {
    if legs == [] then Ok(buffers) else
    var after := Get(buffers, legs[0].mint) + legs[0].amount;
    if after > U64_MAX then Err(TokenProgramFailure) else Deposit(buffers[legs[0].mint := after], legs[1..])
  }

  /** Push every leg out of its mint's buffer; none may underflow. */
  function Withdraw(buffers: map<Address, nat>, legs: seq<Leg>): (r: Result<map<Address, nat>>)
    decreases |legs|
  {
    if legs == [] then Ok(buffers) else
    var held := Get(buffers, legs[0].mint);
    if held < legs[0].amount then Err(TokenProgramFailure)
    else Withdraw(buffers[legs[0].mint := held - legs[0].amount], legs[1..])
  }

  /** From empty buffers: pull every sell amount in, then push every buy amount out. */
  function Simulate(trades: seq<Trade>): (r: Result<map<Address, nat>>)
  {
    var funded :- Deposit(map[], SellLegs(trades));
    Withdraw(funded, BuyLegs(trades))
  }

  // ---------------------------------------------------------------------------------------
  // They agree
  // ---------------------------------------------------------------------------------------

  function SumFor(legs: seq<Leg>, mint: Address): (n: nat)
  {
    if legs == [] then 0 else (if legs[0].mint == mint then legs[0].amount else 0) + SumFor(legs[1..], mint)
  }

  lemma {:induction false} TallyExact(tally: map<Address, nat>, legs: seq<Leg>)
    requires forall mint :: Get(tally, mint) <= U64_MAX
    ensures TallyAll(tally, legs).Ok? <==> forall mint :: Get(tally, mint) + SumFor(legs, mint) <= U64_MAX
    ensures TallyAll(tally, legs).Ok? ==>
      forall mint :: Get(TallyAll(tally, legs).value, mint) == Get(tally, mint) + SumFor(legs, mint)
    decreases |legs|
  {
    if legs != [] {
      var leg := legs[0];
      if TallyLeg(tally, leg).Ok? {
        var next := TallyLeg(tally, leg).value;
        assert forall mint :: Get(next, mint) == Get(tally, mint) + (if leg.mint == mint then leg.amount else 0);
        TallyExact(next, legs[1..]);
      } else {
        assert Get(tally, leg.mint) + SumFor(legs, leg.mint) > U64_MAX;
      }
    }
  }

  lemma {:induction false} DepositExact(buffers: map<Address, nat>, legs: seq<Leg>)
    requires forall mint :: Get(buffers, mint) <= U64_MAX
    ensures Deposit(buffers, legs).Ok? <==> forall mint :: Get(buffers, mint) + SumFor(legs, mint) <= U64_MAX
    ensures Deposit(buffers, legs).Ok? ==>
      forall mint :: Get(Deposit(buffers, legs).value, mint) == Get(buffers, mint) + SumFor(legs, mint)
    decreases |legs|
  {
    if legs != [] {
      var leg := legs[0];
      var after := Get(buffers, leg.mint) + leg.amount;
      if after <= U64_MAX {
        var next := buffers[leg.mint := after];
        assert forall mint :: Get(next, mint) == Get(buffers, mint) + (if leg.mint == mint then leg.amount else 0);
        DepositExact(next, legs[1..]);
      } else {
        assert Get(buffers, leg.mint) + SumFor(legs, leg.mint) > U64_MAX;
      }
    }
  }

  lemma {:induction false} WithdrawExact(buffers: map<Address, nat>, legs: seq<Leg>)
    ensures Withdraw(buffers, legs).Ok? <==> forall mint :: SumFor(legs, mint) <= Get(buffers, mint)
    decreases |legs|
  {
    if legs != [] {
      var leg := legs[0];
      var held := Get(buffers, leg.mint);
      if held >= leg.amount {
        var next := buffers[leg.mint := held - leg.amount];
        assert forall mint :: Get(buffers, mint) == Get(next, mint) + (if leg.mint == mint then leg.amount else 0);
        WithdrawExact(next, legs[1..]);
      } else {
        assert SumFor(legs, leg.mint) > Get(buffers, leg.mint);
      }
    }
  }

  lemma {:induction false} TallyKeys(tally: map<Address, nat>, legs: seq<Leg>, mint: Address)
    requires TallyAll(tally, legs).Ok?
    ensures mint in TallyAll(tally, legs).value <==> mint in tally || exists k :: 0 <= k < |legs| && legs[k].mint == mint
    decreases |legs|
  {
    if legs != [] {
      TallyKeys(TallyLeg(tally, legs[0]).value, legs[1..], mint);
      assert forall k :: 1 <= k < |legs| ==> legs[k] == legs[1..][k - 1];
    }
  }

  /** The check passes exactly when the settlement it builds would run from empty buffers without
      overflowing or underflowing any of them. */
  lemma CheckMatchesSimulation(trades: seq<Trade>)
    ensures var pulled, pushed := TallyAll(map[], SellLegs(trades)), TallyAll(map[], BuyLegs(trades));
      Simulate(trades).Ok? <==> pulled.Ok? && pushed.Ok? && CowBalanced(pulled.value, pushed.value)
  {
    var sells, buys := SellLegs(trades), BuyLegs(trades);
    TallyExact(map[], sells);
    TallyExact(map[], buys);
    DepositExact(map[], sells);
    var pulled, pushed := TallyAll(map[], sells), TallyAll(map[], buys);
    if pulled.Ok? {
      var funded := Deposit(map[], sells).value;
      WithdrawExact(funded, buys);
      assert forall mint :: Get(funded, mint) == Get(pulled.value, mint) == SumFor(sells, mint);
      if Withdraw(funded, buys).Ok? {
        assert forall mint :: SumFor(buys, mint) <= Get(funded, mint) <= U64_MAX;
        assert pushed.Ok?;
        forall mint | mint in pushed.value ensures Get(pulled.value, mint) >= pushed.value[mint] {
          assert Get(pushed.value, mint) == SumFor(buys, mint);
        }
      }
      if pushed.Ok? && CowBalanced(pulled.value, pushed.value) {
        forall mint ensures SumFor(buys, mint) <= Get(funded, mint) {
          assert Get(pushed.value, mint) == SumFor(buys, mint);
        }
      }
    }
  }

  /** The CLI's single pull of the full sell amount, and a push of the full buy amount, settle a
      fresh order completely: price and fill checks pass for both kinds and both fill modes. */
  lemma CliSettlementAccepted(b: OrderBody, buffer: Address)
    requires b.withdrawn == 0 && b.received == 0
    ensures var pulls := [Pull(buffer, b.intent.sellAmount)];
      && Sum(PullAmounts(pulls)) == b.intent.sellAmount
      && Fill(b, b.intent.sellAmount, b.intent.buyAmount).Ok?
      && var b' := Fill(b, b.intent.sellAmount, b.intent.buyAmount).value;
         FillProgress(b'.intent, b'.withdrawn, b'.received).0 == FillProgress(b'.intent, b'.withdrawn, b'.received).1
  {
    var pulls := [Pull(buffer, b.intent.sellAmount)];
    assert PullAmounts(pulls) == [b.intent.sellAmount];
    FullFillAccepted(b);
  }
}
