/** The CLI's settlement, from the orders it is given to the committed transaction: orders that
    cover each other, on accounts that can pay, settle completely. */
module Settlements {
  import opened Basics
  import opened Intent
  import opened Sorting
  import opened SettleWire
  import opened SettleBuild
  import opened Ledger
  import opened Worlds
  import opened Settle
  import opened Transactions
  import opened Fills
  import opened Client
  import opened Cli
  import opened Custody
  import opened Commits
  import StateAccounts

  // ---------------------------------------------------------------------------------------
  // What the CLI builds
  // ---------------------------------------------------------------------------------------

  /** Every order pulled in full into the buffer of its sell mint. */
  function BeginsOf(finder: Finder, intents: seq<OrderIntent>): (begins: seq<InitializedIntent>)
    ensures BeginIntents(begins) == intents
  {
    var begins := seq(|intents|, i requires 0 <= i < |intents| =>
      InitializedIntent(intents[i], [Pull(finder.buffer(intents[i].sell.mint).0, intents[i].sellAmount)], false));
    assert BeginIntents(begins) == intents;
    begins
  }

  /** Every order paid exactly its buy amount. */
  function FinalsOf(intents: seq<OrderIntent>): (finals: seq<FinalizedIntent>)
    ensures FinalIntents(finals) == intents
  {
    var finals := seq(|intents|, i requires 0 <= i < |intents| =>
      FinalizedIntent(intents[i], intents[i].buyAmount, false));
    assert FinalIntents(finals) == intents;
    finals
  }

  /** What the tallies read of the orders. */
  function TradesOf(intents: seq<OrderIntent>): (trades: seq<Trade>)
    ensures |trades| == |intents|
  {
    seq(|intents|, i requires 0 <= i < |intents| =>
      Trade(intents[i].sell.mint, intents[i].sellAmount, BuyMint(intents[i]), intents[i].buyAmount))
  }

  // ---------------------------------------------------------------------------------------
  // Sums over the orders
  // ---------------------------------------------------------------------------------------

  /** What leaves each sell account. */
  function SoldLegs(intents: seq<OrderIntent>): (legs: seq<Leg>)
    ensures |legs| == |intents|
  {
    seq(|intents|, i requires 0 <= i < |intents| => Leg(intents[i].sell.account, intents[i].sellAmount))
  }

  /** What reaches each buffer. */
  function PulledLegs(finder: Finder, intents: seq<OrderIntent>): (legs: seq<Leg>)
    ensures |legs| == |intents|
  {
    seq(|intents|, i requires 0 <= i < |intents| =>
      Leg(finder.buffer(intents[i].sell.mint).0, intents[i].sellAmount))
  }

  /** What leaves each source. */
  function PaidLegs(finder: Finder, intents: seq<OrderIntent>): (legs: seq<Leg>)
    ensures |legs| == |intents|
  {
    seq(|intents|, i requires 0 <= i < |intents| => Leg(SourceOf(finder, intents[i]).0, intents[i].buyAmount))
  }

  /** What reaches each buy account. */
  function BoughtLegs(intents: seq<OrderIntent>): (legs: seq<Leg>)
    ensures |legs| == |intents|
  {
    seq(|intents|, i requires 0 <= i < |intents| => Leg(BuyAccount(intents[i]), intents[i].buyAmount))
  }

  function LegAt(leg: Leg, a: Address): (n: nat) { if leg.mint == a then leg.amount else 0 }

  lemma {:induction false} SumForAppend(legs: seq<Leg>, leg: Leg, a: Address)
    ensures SumFor(legs + [leg], a) == SumFor(legs, a) + LegAt(leg, a)
  {
    if legs == [] {
      assert legs + [leg] == [leg];
      assert [leg][1..] == [];
    } else {
      SumForAppend(legs[1..], leg, a);
      assert (legs + [leg])[1..] == legs[1..] + [leg];
    }
  }

  lemma {:induction false} InsertedSum(legs: seq<Leg>, keys: seq<Address>, perm: seq<nat>, i: nat, a: Address)
    requires |legs| == |keys| && i < |keys| && forall k :: 0 <= k < |perm| ==> perm[k] < |keys|
    ensures SumFor(Gather(legs, InsertIndex(keys, perm, i)), a) == SumFor(Gather(legs, perm), a) + LegAt(legs[i], a)
    decreases |perm|
  {
    var r := InsertIndex(keys, perm, i);
    var g := Gather(legs, r);
    if perm == [] || Less(keys[i], keys[perm[0]]) {
      assert g[1..] == Gather(legs, perm);
    } else {
      InsertedSum(legs, keys, perm[1..], i, a);
      assert g[1..] == Gather(legs, InsertIndex(keys, perm[1..], i));
      assert Gather(legs, perm)[1..] == Gather(legs, perm[1..]);
    }
  }

  /** The sum over the first `n` legs. */
  function FirstSum(legs: seq<Leg>, n: nat, a: Address): (s: nat)
    requires n <= |legs|
  {
    if n == 0 then 0 else FirstSum(legs, n - 1, a) + LegAt(legs[n - 1], a)
  }

  lemma {:induction false} FirstIsSum(legs: seq<Leg>, n: nat, a: Address)
    requires n <= |legs|
    ensures FirstSum(legs, n, a) == SumFor(legs[..n], a)
  {
    if n > 0 {
      FirstIsSum(legs, n - 1, a);
      SumForAppend(legs[..n - 1], legs[n - 1], a);
      assert legs[..n] == legs[..n - 1] + [legs[n - 1]];
    }
  }

  /** Sorting does not change a sum. */
  lemma {:induction false} SortedSum(legs: seq<Leg>, keys: seq<Address>, n: nat, a: Address)
    requires |legs| == |keys| && n <= |keys|
    ensures SumFor(Gather(legs, SortIndices(keys, n)), a) == FirstSum(legs, n, a)
  {
    if n > 0 {
      SortedSum(legs, keys, n - 1, a);
      InsertedSum(legs, keys, SortIndices(keys, n - 1), n - 1, a);
    }
  }

  /** The orders, sorted by address. */
  function Sorted(finder: Finder, intents: seq<OrderIntent>): (sorted: seq<OrderIntent>)
    ensures |sorted| == |intents|
  {
    Gather(intents, SortedPositions(finder, intents))
  }

  lemma SortedSumAgrees(finder: Finder, intents: seq<OrderIntent>, legs: seq<Leg>, sorted: seq<Leg>, a: Address)
    requires |legs| == |sorted| == |intents|
    requires forall k :: 0 <= k < |sorted| ==> sorted[k] == legs[SortedPositions(finder, intents)[k]]
    ensures SumFor(sorted, a) == SumFor(legs, a)
  {
    var keys := KeysOf(finder, intents);
    SortedSum(legs, keys, |keys|, a);
    FirstIsSum(legs, |keys|, a);
    assert sorted == Gather(legs, SortIndices(keys, |keys|)) && legs[..|keys|] == legs;
  }

  lemma SortedLegs(finder: Finder, intents: seq<OrderIntent>, a: Address)
    ensures SumFor(SoldLegs(Sorted(finder, intents)), a) == SumFor(SoldLegs(intents), a)
    ensures SumFor(PulledLegs(finder, Sorted(finder, intents)), a) == SumFor(PulledLegs(finder, intents), a)
    ensures SumFor(PaidLegs(finder, Sorted(finder, intents)), a) == SumFor(PaidLegs(finder, intents), a)
    ensures SumFor(BoughtLegs(Sorted(finder, intents)), a) == SumFor(BoughtLegs(intents), a)
  {
    var s := Sorted(finder, intents);
    SortedSumAgrees(finder, intents, SoldLegs(intents), SoldLegs(s), a);
    SortedSumAgrees(finder, intents, PulledLegs(finder, intents), PulledLegs(finder, s), a);
    SortedSumAgrees(finder, intents, PaidLegs(finder, intents), PaidLegs(finder, s), a);
    SortedSumAgrees(finder, intents, BoughtLegs(intents), BoughtLegs(s), a);
  }

  // ---------------------------------------------------------------------------------------
  // The tallies cover the payouts
  // ---------------------------------------------------------------------------------------

  /** Some order of the batch sells or buys the mint. */
  ghost predicate Traded(intents: seq<OrderIntent>, m: Address)
  {
    exists i :: 0 <= i < |intents| && (intents[i].sell.mint == m || BuyMint(intents[i]) == m)
  }

  /** No two mints of the batch share a buffer. */
  ghost predicate BuffersDistinct(finder: Finder, intents: seq<OrderIntent>)
  {
    forall m, m' :: Traded(intents, m) && Traded(intents, m') && finder.buffer(m).0 == finder.buffer(m').0 ==> m == m'
  }

  lemma {:induction false} BufferSum(finder: Finder, byMint: seq<Leg>, byBuffer: seq<Leg>, m: Address)
    requires |byMint| == |byBuffer|
    requires forall k :: 0 <= k < |byMint| ==> byBuffer[k] == Leg(finder.buffer(byMint[k].mint).0, byMint[k].amount)
    requires forall k :: 0 <= k < |byMint| ==>
      (finder.buffer(byMint[k].mint).0 == finder.buffer(m).0 ==> byMint[k].mint == m)
    ensures SumFor(byBuffer, finder.buffer(m).0) == SumFor(byMint, m)
    decreases |byMint|
  {
    if byMint != [] {
      assert byBuffer[0] == Leg(finder.buffer(byMint[0].mint).0, byMint[0].amount);
      BufferSum(finder, byMint[1..], byBuffer[1..], m);
    }
  }

  lemma SimulationCovers(trades: seq<Trade>, m: Address)
    requires Simulate(trades).Ok?
    ensures SumFor(BuyLegs(trades), m) <= SumFor(SellLegs(trades), m)
  {
    var sells, buys := SellLegs(trades), BuyLegs(trades);
    DepositExact(map[], sells);
    WithdrawExact(Deposit(map[], sells).value, buys);
    assert Get(Deposit(map[], sells).value, m) == SumFor(sells, m);
  }

  lemma {:induction false} SomeLeg(legs: seq<Leg>, a: Address) returns (k: nat)
    requires SumFor(legs, a) > 0
    ensures k < |legs| && legs[k].mint == a
    decreases |legs|
  {
    if legs[0].mint == a {
      k := 0;
    } else {
      k := SomeLeg(legs[1..], a);
      k := k + 1;
    }
  }

  /** When the check passes, what each source pays out is no more than what is pulled into it. */
  lemma PayoutsCovered(finder: Finder, intents: seq<OrderIntent>, a: Address)
    requires BuffersDistinct(finder, intents) && Simulate(TradesOf(intents)).Ok?
    requires forall i :: 0 <= i < |intents| ==> intents[i].buy.Token?
    ensures SumFor(PaidLegs(finder, intents), a) <= SumFor(PulledLegs(finder, intents), a)
  {
    if SumFor(PaidLegs(finder, intents), a) > 0 {
      var k := SomeLeg(PaidLegs(finder, intents), a);
      var m := intents[k].buy.token.mint;
      assert a == finder.buffer(m).0 && Traded(intents, m);
      forall j | 0 <= j < |intents| ensures Traded(intents, intents[j].sell.mint) && Traded(intents, BuyMint(intents[j])) {}
      BufferSum(finder, BuyLegs(TradesOf(intents)), PaidLegs(finder, intents), m);
      BufferSum(finder, SellLegs(TradesOf(intents)), PulledLegs(finder, intents), m);
      SimulationCovers(TradesOf(intents), m);
    }
  }

  // ---------------------------------------------------------------------------------------
  // The parsed batch
  // ---------------------------------------------------------------------------------------

  /** A parsed order that pulls the whole sell amount of `intent` into its mint's buffer. */
  ghost predicate PullsAll(finder: Finder, o: SettledOrder<Meta>, intent: OrderIntent)
  {
    && o.orderPda.key == finder.order(intent) && o.sellAccount.key == intent.sell.account
    && o.destinations == [ReadOnly(finder.buffer(intent.sell.mint).0)] && o.amounts == [intent.sellAmount]
  }

  /** A push of the whole buy amount of `intent` out of its source. */
  ghost predicate PaysAll(finder: Finder, p: PairedPush, intent: OrderIntent)
  {
    p == PairedPush(SourceOf(finder, intent).0, BuyAccount(intent), SourceOf(finder, intent).1, intent.buyAmount)
  }

  ghost predicate BatchOf(finder: Finder, orders: seq<SettledOrder<Meta>>, intents: seq<OrderIntent>)
  {
    |orders| == |intents| && forall k :: 0 <= k < |orders| ==> PullsAll(finder, orders[k], intents[k])
  }

  lemma OnePull(finder: Finder, o: SettledOrder<Meta>, intent: OrderIntent, a: Address)
    requires PullsAll(finder, o, intent)
    ensures |o.destinations| == |o.amounts| && Sum(o.amounts) == intent.sellAmount
    ensures PulledInto(o.destinations, o.amounts, a)
         == LegAt(Leg(finder.buffer(intent.sell.mint).0, intent.sellAmount), a)
  {
    assert o.amounts[1..] == [] && o.destinations[1..] == [];
    assert PulledInto(o.destinations[1..], o.amounts[1..], a) == 0;
  }

  lemma {:induction false} BatchSums(finder: Finder, orders: seq<SettledOrder<Meta>>, intents: seq<OrderIntent>, a: Address)
    requires BatchOf(finder, orders, intents)
    ensures WellGrouped(orders)
    ensures SoldFrom(orders, a) == SumFor(SoldLegs(intents), a)
    ensures BroughtInto(orders, a) == SumFor(PulledLegs(finder, intents), a)
    decreases |orders|
  {
    forall k | 0 <= k < |orders| ensures |orders[k].destinations| == |orders[k].amounts| {
      assert PullsAll(finder, orders[k], intents[k]);
    }
    if orders != [] {
      assert PullsAll(finder, orders[0], intents[0]);
      OnePull(finder, orders[0], intents[0], a);
      forall k | 0 <= k < |orders[1..]| ensures PullsAll(finder, orders[1..][k], intents[1..][k]) {
        assert PullsAll(finder, orders[k + 1], intents[k + 1]);
      }
      BatchSums(finder, orders[1..], intents[1..], a);
      assert SoldLegs(intents)[1..] == SoldLegs(intents[1..]);
      assert PulledLegs(finder, intents)[1..] == PulledLegs(finder, intents[1..]);
    }
  }

  ghost predicate PayoutOf(ctx: PayContext, finder: Finder, pushes: seq<Push<Meta>>, intents: seq<OrderIntent>)
  {
    && |pushes| == |intents|
    && forall k :: 0 <= k < |pushes| ==> PaysAll(finder, Paired(pushes[k]), intents[k]) && !IsNative(ctx, pushes[k])
  }

  lemma {:induction false} PayoutSums(ctx: PayContext, finder: Finder, pushes: seq<Push<Meta>>,
                                      intents: seq<OrderIntent>, a: Address)
    requires PayoutOf(ctx, finder, pushes, intents)
    ensures Debited(ctx, pushes, false, a) == SumFor(PaidLegs(finder, intents), a)
    ensures Credited(ctx, pushes, false, a) == SumFor(BoughtLegs(intents), a)
    ensures Debited(ctx, pushes, true, a) == 0 && Credited(ctx, pushes, true, a) == 0
    decreases |pushes|
  {
    if pushes != [] {
      assert PaysAll(finder, Paired(pushes[0]), intents[0]) && !IsNative(ctx, pushes[0]);
      forall k | 0 <= k < |pushes[1..]|
        ensures PaysAll(finder, Paired(pushes[1..][k]), intents[1..][k]) && !IsNative(ctx, pushes[1..][k])
      {
        assert PaysAll(finder, Paired(pushes[k + 1]), intents[k + 1]) && !IsNative(ctx, pushes[k + 1]);
      }
      PayoutSums(ctx, finder, pushes[1..], intents[1..], a);
      assert PaidLegs(finder, intents)[1..] == PaidLegs(finder, intents[1..]);
      assert BoughtLegs(intents)[1..] == BoughtLegs(intents[1..]);
    }
  }

  // ---------------------------------------------------------------------------------------
  // The pair as the program reads it
  // ---------------------------------------------------------------------------------------

  /** The begin for position `i`, its finalize right after it. */
  function BeginFor(finder: Finder, solver: Address, i: nat, intents: seq<OrderIntent>): (b: BeginBuilder)
    requires i + 1 < 0x1_0000
    ensures b.Parallel()
  {
    BeginOf(finder, solver, i + 1, 0, None, BeginsOf(finder, intents))
  }

  function FinalizeFor(finder: Finder, i: nat, intents: seq<OrderIntent>): (f: FinalizeBuilder)
    requires i + 1 < 0x1_0000
    ensures f.Parallel()
  {
    FinalizeOf(finder, i, None, FinalsOf(intents))
  }

  /** The begin reads as the sorted orders, each pulled in full. */
  ghost predicate ReadsAsBegin(env: Env, finder: Finder, solver: Address, i: nat, intents: seq<OrderIntent>, begin: Ix,
                               orders: seq<SettledOrder<Meta>>)
  {
    var r := ParseBegin(begin.data, begin.metas);
    && r.Ok? && r.value.finalizeIx == i + 1 && r.value.solver == Meta(solver, true)
    && r.value.sysvar.key == env.sysvar && r.value.statePda.key == env.statePda
    && SplitOrders(r.value.orders) == orders
    && BatchOf(finder, orders, Sorted(finder, intents)) && Above(None, orders)
    && forall k :: 0 <= k < |orders| ==> orders[k].sellMint.key == env.sysvar
  }

  /** The finalize reads as their payouts, in the same order. */
  ghost predicate ReadsAsFinalize(env: Env, finder: Finder, i: nat, intents: seq<OrderIntent>, final: Ix, pushes: seq<Push<Meta>>)
  {
    && ParseFinalize(final.data, final.metas)
       == Ok(FinalizeInput(i, ReadOnly(env.sysvar), ReadOnly(env.statePda), pushes))
    && |pushes| == |intents|
    && forall k :: 0 <= k < |pushes| ==>
         PaysAll(finder, Paired(pushes[k]), Sorted(finder, intents)[k]) && pushes[k].mint.key == env.sysvar
  }

  /** At `i` and right after it, the pairing checks pass, and the begin sees the pushes. */
  ghost predicate Reciprocal(env: Env, ixs: seq<Ix>, i: nat, pushes: seq<Push<Meta>>)
  {
    && i + 1 < |ixs| && IsBegin(env, ixs[i]) && IsFinalize(env, ixs[i + 1])
    && ValidateCounterpart(env, ixs, i + 1, i, BeginSettle).Ok?
    && PairedPushes(env, ixs, i, i + 1).Ok? && |PairedPushes(env, ixs, i, i + 1).value| == |pushes|
    && forall k :: 0 <= k < |pushes| ==> PairedPushes(env, ixs, i, i + 1).value[k] == Paired(pushes[k])
  }

  lemma BeginReadsBack(env: Env, finder: Finder, ids: Ids, solver: Address, i: nat, intents: seq<OrderIntent>)
    returns (orders: seq<SettledOrder<Meta>>)
    requires ids.sysvar == env.sysvar && finder.statePda == env.statePda
    requires DistinctOrders(finder, intents) && |intents| <= 255 && i + 1 < 0x1_0000
    ensures ReadsAsBegin(env, finder, solver, i, intents,
                         BeginIxOf(ids, env.programId, BeginFor(finder, solver, i, intents)), orders)
  {
    var b, begins := BeginFor(finder, solver, i, intents), BeginsOf(finder, intents);
    ClientBeginReads(finder, ids, b, begins);
    BeginRoundTrip(ids, b);
    orders := SplitOrders(ParseBegin(BeginData(b), BeginMetas(ids, b)).value.orders);
    forall k | 0 <= k < |orders|
      ensures PullsAll(finder, orders[k], Sorted(finder, intents)[k]) && orders[k].sellMint.key == env.sysvar
    {
      OneEntry(finder, ids, orders, begins, k);
    }
  }

  lemma OneEntry(finder: Finder, ids: Ids, orders: seq<SettledOrder<Meta>>, begins: seq<InitializedIntent>, k: nat)
    requires BeginReads(finder, ids, orders, begins) && k < |orders|
    requires begins == BeginsOf(finder, BeginIntents(begins))
    ensures PullsAll(finder, orders[k], Sorted(finder, BeginIntents(begins))[k]) && orders[k].sellMint.key == ids.sysvar
  {
    var pos := SortedPositions(finder, BeginIntents(begins))[k];
    var begin := begins[pos];
    assert orders[k].destinations == DestinationMetas(begin.pulls) && orders[k].amounts == PullAmounts(begin.pulls);
    assert DestinationMetas(begin.pulls) == [ReadOnly(begin.pulls[0].destination)];
    assert PullAmounts(begin.pulls) == [begin.pulls[0].amount];
  }

  lemma FinalizeReadsBack(env: Env, finder: Finder, ids: Ids, i: nat, intents: seq<OrderIntent>)
    returns (pushes: seq<Push<Meta>>)
    requires ids.sysvar == env.sysvar && finder.statePda == env.statePda
    requires i + 1 < 0x1_0000 && forall j :: 0 <= j < |intents| ==> intents[j].buy.Token?
    ensures ReadsAsFinalize(env, finder, i, intents, FinalizeIxOf(ids, env.programId, FinalizeFor(finder, i, intents)), pushes)
  {
    var f := FinalizeFor(finder, i, intents);
    FinalizeRoundTrip(ids, f);
    pushes := BuiltPushes(ids, f);
    forall k | 0 <= k < |pushes|
      ensures PaysAll(finder, Paired(pushes[k]), Sorted(finder, intents)[k]) && pushes[k].mint.key == env.sysvar
    {
      assert pushes[k] == Push(ReadOnly(f.sources[k]), ReadOnly(f.destinations[k]), ReadOnly(MintSlot(ids, f.mints[k])),
                               f.bumps[k], f.amounts[k]);
    }
  }

  lemma PairIsReciprocal(env: Env, finder: Finder, ids: Ids, solver: Address, intents: seq<OrderIntent>,
                         ixs: seq<Ix>, i: nat, pushes: seq<Push<Meta>>)
    requires i + 1 < 0x1_0000 && i + 1 < |ixs|
    requires ixs[i] == BeginIxOf(ids, env.programId, BeginFor(finder, solver, i, intents))
    requires ixs[i + 1] == FinalizeIxOf(ids, env.programId, FinalizeFor(finder, i, intents))
    requires ParseFinalize(ixs[i + 1].data, ixs[i + 1].metas).Ok?
    requires ParseFinalize(ixs[i + 1].data, ixs[i + 1].metas).value.pushes == pushes
    ensures Reciprocal(env, ixs, i, pushes)
  {
    var b, f := BeginFor(finder, solver, i, intents), FinalizeFor(finder, i, intents);
    BuiltPairIsReciprocal(env, ids, b, f, ixs, i, i + 1);
    BuiltPairIsSeen(env, ids, b, f, ixs, i, i + 1);
    IntrospectionAgrees(ixs[i + 1].data, ixs[i + 1].metas);
    BeginPrefix(b);
    FinalizePrefix(f);
  }

  /** Built for positions `i` and `i + 1` and placed there, the pair reads back as the batch. */
  lemma PairReadsBack(env: Env, finder: Finder, ids: Ids, solver: Address, intents: seq<OrderIntent>, ixs: seq<Ix>, i: nat)
    returns (orders: seq<SettledOrder<Meta>>, pushes: seq<Push<Meta>>)
    requires ids.sysvar == env.sysvar && finder.statePda == env.statePda && i + 1 < 0x1_0000 && i + 1 < |ixs|
    requires DistinctOrders(finder, intents) && |intents| <= 255
    requires forall j :: 0 <= j < |intents| ==> intents[j].buy.Token?
    requires ixs[i] == BeginIxOf(ids, env.programId, BeginFor(finder, solver, i, intents))
    requires ixs[i + 1] == FinalizeIxOf(ids, env.programId, FinalizeFor(finder, i, intents))
    ensures Reciprocal(env, ixs, i, pushes) && ReadsAsBegin(env, finder, solver, i, intents, ixs[i], orders)
    ensures ReadsAsFinalize(env, finder, i, intents, ixs[i + 1], pushes)
  {
    orders := BeginReadsBack(env, finder, ids, solver, i, intents);
    pushes := FinalizeReadsBack(env, finder, ids, i, intents);
    PairIsReciprocal(env, finder, ids, solver, intents, ixs, i, pushes);
  }

  // ---------------------------------------------------------------------------------------
  // It commits
  // ---------------------------------------------------------------------------------------

  /** The order is stored afresh and live, and the accounts it moves between exist. */
  ghost predicate OrderPrepared(env: Env, now: int, finder: Finder, w: World, intent: OrderIntent)
  {
    var a, source := finder.order(intent), SourceOf(finder, intent).0;
    && intent.buy.Token? && Denotable(intent.buy) && now <= intent.validTo
    && a in w.orders && env.orderAddress(intent, w.orders[a].bump) == Some(a)
    && w.orders[a].intent == intent && !w.orders[a].cancelled
    && w.orders[a].withdrawn == 0 && w.orders[a].received == 0
    && SameKind(w.tokens, intent.sell.account, finder.buffer(intent.sell.mint).0)
    && w.tokens[intent.sell.account].owner == intent.owner && w.tokens[intent.sell.account].mint == intent.sell.mint
    && SameKind(w.tokens, source, BuyAccount(intent)) && source != BuyAccount(intent)
    && w.tokens[source].owner == env.statePda && w.tokens[source].delegate != Some(env.statePda)
  }

  /** Every account holds, and lets the program move, what the orders sell from it, and has room
      for all that reaches it. */
  ghost predicate BalancesSuffice(env: Env, finder: Finder, t: Tokens, intents: seq<OrderIntent>)
  {
    forall a :: a in t ==>
      && Enough(env.statePda, t[a], SumFor(SoldLegs(intents), a), SumFor(PulledLegs(finder, intents), a))
      && t[a].amount + SumFor(PulledLegs(finder, intents), a) + SumFor(BoughtLegs(intents), a) <= U64_MAX
  }

  ghost predicate Prepared(env: Env, now: int, finder: Finder, solver: Address, w: World, intents: seq<OrderIntent>)
  {
    && env.Sound() && FinderAgrees(env, finder) && BuffersDistinct(finder, intents)
    && DistinctOrders(finder, intents) && |intents| <= 255
    && StateAccounts.Attachable(w.state) && StateAccounts.IsSolver(w.state, solver)
    && (forall i :: 0 <= i < |intents| ==> OrderPrepared(env, now, finder, w, intents[i]))
    && BalancesSuffice(env, finder, w.tokens, intents)
    && forall a :: Get(w.lamports, a) <= U64_MAX
  }

  lemma SortedPrepared(env: Env, now: int, finder: Finder, w: World, intents: seq<OrderIntent>, k: nat)
    requires forall i :: 0 <= i < |intents| ==> OrderPrepared(env, now, finder, w, intents[i])
    requires k < |intents|
    ensures OrderPrepared(env, now, finder, w, Sorted(finder, intents)[k])
  {
    assert Sorted(finder, intents)[k] == intents[SortedPositions(finder, intents)[k]];
  }

  lemma OrderIsReady(env: Env, now: int, finder: Finder, w: World, intent: OrderIntent, o: SettledOrder<Meta>, push: PairedPush)
    requires env.Sound() && FinderAgrees(env, finder) && OrderPrepared(env, now, finder, w, intent)
    requires PullsAll(finder, o, intent) && o.sellMint.key == env.sysvar && PaysAll(finder, push, intent)
    ensures Ready(env, now, w, o, push)
  {
    SourceAccepted(env, finder, intent);
    OnePull(finder, o, intent, o.orderPda.key);
    FullFillAccepted(w.orders[o.orderPda.key]);
  }

  /** The batch settles. */
  lemma BatchCommits(env: Env, now: int, finder: Finder, solver: Address, w: World, intents: seq<OrderIntent>,
                     orders: seq<SettledOrder<Meta>>, seen: seq<PairedPush>)
    requires Prepared(env, now, finder, solver, w, intents)
    requires BatchOf(finder, orders, Sorted(finder, intents)) && Above(None, orders)
    requires forall k :: 0 <= k < |orders| ==> orders[k].sellMint.key == env.sysvar
    requires |seen| == |intents|
    requires forall k :: 0 <= k < |seen| ==> PaysAll(finder, seen[k], Sorted(finder, intents)[k])
    ensures WellGrouped(orders) && SettleOrders(env, now, w, orders, seen, None).Ok?
  {
    forall k | 0 <= k < |orders| ensures Ready(env, now, w, orders[k], seen[k]) {
      SortedPrepared(env, now, finder, w, intents, k);
      assert PullsAll(finder, orders[k], Sorted(finder, intents)[k]);
      OrderIsReady(env, now, finder, w, Sorted(finder, intents)[k], orders[k], seen[k]);
    }
    BatchSums(finder, orders, Sorted(finder, intents), finder.statePda);
    forall a | a in w.tokens ensures Enough(env.statePda, w.tokens[a], SoldFrom(orders, a), BroughtInto(orders, a)) {
      BatchSums(finder, orders, Sorted(finder, intents), a);
      SortedLegs(finder, intents, a);
    }
    BatchSucceeds(env, now, w, orders, seen, None);
  }

  /** What the batch leaves behind: every order complete, every balance moved exactly. */
  ghost predicate BatchLeaves(env: Env, finder: Finder, w: World, intents: seq<OrderIntent>, w': World)
  {
    && w' == w.(orders := w'.orders, tokens := w'.tokens) && SameAccounts(w.tokens, w'.tokens)
    && (forall a :: a in w.tokens ==>
          w'.tokens[a].amount + SumFor(SoldLegs(intents), a) == w.tokens[a].amount + SumFor(PulledLegs(finder, intents), a))
    && (forall a :: a in w.tokens && w.tokens[a].delegate != Some(env.statePda) ==>
          w'.tokens[a].delegate != Some(env.statePda))
    && forall i :: 0 <= i < |intents| ==> Completed(finder, w, w', intents[i])
  }

  ghost predicate Completed(finder: Finder, w: World, w': World, intent: OrderIntent)
  {
    var a := finder.order(intent);
    && a in w.orders && a in w'.orders
    && w'.orders[a] == w.orders[a].(withdrawn := intent.sellAmount, received := intent.buyAmount)
  }

  lemma EveryOrderCompleted(env: Env, now: int, finder: Finder, w: World, intents: seq<OrderIntent>,
                            orders: seq<SettledOrder<Meta>>, seen: seq<PairedPush>, i: nat)
    requires |env.buffers.known| < 255 && WellGrouped(orders) && SettleOrders(env, now, w, orders, seen, None).Ok?
    requires BatchOf(finder, orders, Sorted(finder, intents)) && |seen| == |intents| && i < |intents|
    requires forall k :: 0 <= k < |seen| ==> PaysAll(finder, seen[k], Sorted(finder, intents)[k])
    requires OrderPrepared(env, now, finder, w, intents[i])
    ensures Completed(finder, w, SettleOrders(env, now, w, orders, seen, None).value.world, intents[i])
  {
    SortCovers(KeysOf(finder, intents), |intents|, i);
    var k :| 0 <= k < |intents| && SortedPositions(finder, intents)[k] == i;
    assert PullsAll(finder, orders[k], Sorted(finder, intents)[k]) && PaysAll(finder, seen[k], Sorted(finder, intents)[k]);
    BatchEffect(env, now, w, orders, seen, None, k);
    OnePull(finder, orders[k], intents[i], finder.statePda);
  }

  lemma BatchOutcome(env: Env, now: int, finder: Finder, solver: Address, w: World, intents: seq<OrderIntent>,
                     orders: seq<SettledOrder<Meta>>, seen: seq<PairedPush>) returns (w': World)
    requires Prepared(env, now, finder, solver, w, intents)
    requires WellGrouped(orders) && SettleOrders(env, now, w, orders, seen, None).Ok?
    requires BatchOf(finder, orders, Sorted(finder, intents)) && |seen| == |intents|
    requires forall k :: 0 <= k < |seen| ==> PaysAll(finder, seen[k], Sorted(finder, intents)[k])
    ensures w' == SettleOrders(env, now, w, orders, seen, None).value.world && BatchLeaves(env, finder, w, intents, w')
  {
    w' := SettleOrders(env, now, w, orders, seen, None).value.world;
    BatchShape(env, now, w, orders, seen, None);
    BatchMoves(env, now, w, orders, seen, None, finder.statePda);
    forall a | a in w.tokens
      ensures w'.tokens[a].amount + SumFor(SoldLegs(intents), a) == w.tokens[a].amount + SumFor(PulledLegs(finder, intents), a)
    {
      BatchMoves(env, now, w, orders, seen, None, a);
      BatchSums(finder, orders, Sorted(finder, intents), a);
      SortedLegs(finder, intents, a);
    }
    forall a | a in w.tokens && w.tokens[a].delegate != Some(env.statePda)
      ensures w'.tokens[a].delegate != Some(env.statePda)
    {
      BatchDelegatesNothing(env, now, w, orders, seen, None, a);
    }
    forall i | 0 <= i < |intents| ensures Completed(finder, w, w', intents[i]) {
      EveryOrderCompleted(env, now, finder, w, intents, orders, seen, i);
    }
  }

  lemma PushIsPayable(env: Env, now: int, finder: Finder, w: World, intents: seq<OrderIntent>, w1: World,
                      intent: OrderIntent, push: Push<Meta>)
    requires env.Sound() && FinderAgrees(env, finder) && OrderPrepared(env, now, finder, w, intent)
    requires BatchLeaves(env, finder, w, intents, w1)
    requires PaysAll(finder, Paired(push), intent) && push.mint.key == env.sysvar
    ensures !IsNative(PayContextOf(env, w1), push) && Payable(PayContextOf(env, w1), w1.tokens, push)
  {
    SourceAccepted(env, finder, intent);
    NativeExactly(env, push.source.key, BuyMint(intent), push.bump);
  }

  lemma PushesArePayable(env: Env, now: int, finder: Finder, solver: Address, w: World, intents: seq<OrderIntent>,
                         w1: World, i: nat, final: Ix, pushes: seq<Push<Meta>>)
    requires Prepared(env, now, finder, solver, w, intents) && BatchLeaves(env, finder, w, intents, w1)
    requires ReadsAsFinalize(env, finder, i, intents, final, pushes)
    ensures var ctx := PayContextOf(env, w1);
      && PayoutOf(ctx, finder, pushes, Sorted(finder, intents))
      && forall k :: 0 <= k < |pushes| ==> Payable(ctx, w1.tokens, pushes[k])
  {
    forall k | 0 <= k < |pushes|
      ensures PaysAll(finder, Paired(pushes[k]), Sorted(finder, intents)[k])
      ensures !IsNative(PayContextOf(env, w1), pushes[k]) && Payable(PayContextOf(env, w1), w1.tokens, pushes[k])
    {
      SortedPrepared(env, now, finder, w, intents, k);
      PushIsPayable(env, now, finder, w, intents, w1, Sorted(finder, intents)[k], pushes[k]);
    }
  }

  lemma PayoutCovered(env: Env, finder: Finder, w: World, intents: seq<OrderIntent>, w1: World, pushes: seq<Push<Meta>>,
                      a: Address)
    requires BuffersDistinct(finder, intents) && BalancesSuffice(env, finder, w.tokens, intents)
    requires BatchLeaves(env, finder, w, intents, w1) && a in w1.tokens
    requires PayoutOf(PayContextOf(env, w1), finder, pushes, Sorted(finder, intents))
    requires Simulate(TradesOf(intents)).Ok? && forall i :: 0 <= i < |intents| ==> intents[i].buy.Token?
    ensures Debited(PayContextOf(env, w1), pushes, false, a) <= w1.tokens[a].amount
    ensures w1.tokens[a].amount + Credited(PayContextOf(env, w1), pushes, false, a) <= U64_MAX
  {
    PayoutSums(PayContextOf(env, w1), finder, pushes, Sorted(finder, intents), a);
    SortedLegs(finder, intents, a);
    PayoutsCovered(finder, intents, a);
    assert a in w.tokens;
    assert Enough(env.statePda, w.tokens[a], SumFor(SoldLegs(intents), a), SumFor(PulledLegs(finder, intents), a));
  }

  lemma AllTokens(env: Env, now: int, finder: Finder, w: World, intents: seq<OrderIntent>)
    requires forall i :: 0 <= i < |intents| ==> OrderPrepared(env, now, finder, w, intents[i])
    ensures forall i :: 0 <= i < |intents| ==> intents[i].buy.Token?
  {
    forall i | 0 <= i < |intents| ensures intents[i].buy.Token? {
      assert OrderPrepared(env, now, finder, w, intents[i]);
    }
  }

  lemma NoLamportsPaid(ctx: PayContext, finder: Finder, intents: seq<OrderIntent>, l: Lamports, pushes: seq<Push<Meta>>)
    requires PayoutOf(ctx, finder, pushes, Sorted(finder, intents)) && forall a :: Get(l, a) <= U64_MAX
    ensures LamportsCover(ctx, l, pushes) && !AnyNative(ctx, pushes)
  {
    forall a ensures Debited(ctx, pushes, true, a) <= Get(l, a) && Get(l, a) + Credited(ctx, pushes, true, a) <= U64_MAX {
      PayoutSums(ctx, finder, pushes, Sorted(finder, intents), a);
    }
  }

  /** The payout succeeds, out of nothing but what was just pulled. */
  lemma PayoutCommits(env: Env, now: int, finder: Finder, solver: Address, w: World, intents: seq<OrderIntent>,
                      w1: World, i: nat, final: Ix, pushes: seq<Push<Meta>>)
    requires Prepared(env, now, finder, solver, w, intents) && BatchLeaves(env, finder, w, intents, w1)
    requires ReadsAsFinalize(env, finder, i, intents, final, pushes) && Simulate(TradesOf(intents)).Ok?
    ensures PayoutOf(PayContextOf(env, w1), finder, pushes, Sorted(finder, intents))
    ensures PushFunds(PayContextOf(env, w1), Funds(w1.tokens, w1.lamports), pushes).Ok?
  {
    var ctx := PayContextOf(env, w1);
    PushesArePayable(env, now, finder, solver, w, intents, w1, i, final, pushes);
    AllTokens(env, now, finder, w, intents);
    forall a | a in w1.tokens
      ensures Debited(ctx, pushes, false, a) <= w1.tokens[a].amount
      ensures w1.tokens[a].amount + Credited(ctx, pushes, false, a) <= U64_MAX
    {
      PayoutCovered(env, finder, w, intents, w1, pushes, a);
    }
    NoLamportsPaid(ctx, finder, intents, w1.lamports, pushes);
    PayoutSucceeds(ctx, Funds(w1.tokens, w1.lamports), pushes);
  }

  /** The balances once everything is paid. */
  ghost predicate Balanced(finder: Finder, w: World, intents: seq<OrderIntent>, w': World)
  {
    && SameAccounts(w.tokens, w'.tokens)
    && forall a :: a in w.tokens ==>
         w'.tokens[a].amount + SumFor(SoldLegs(intents), a) + SumFor(PaidLegs(finder, intents), a)
         == w.tokens[a].amount + SumFor(PulledLegs(finder, intents), a) + SumFor(BoughtLegs(intents), a)
  }

  lemma PayoutOutcome(env: Env, finder: Finder, w: World, intents: seq<OrderIntent>, w1: World, pushes: seq<Push<Meta>>,
                      w2: World)
    requires BatchLeaves(env, finder, w, intents, w1)
    requires PayoutOf(PayContextOf(env, w1), finder, pushes, Sorted(finder, intents))
    requires PushFunds(PayContextOf(env, w1), Funds(w1.tokens, w1.lamports), pushes) == Ok(Funds(w2.tokens, w2.lamports))
    ensures Balanced(finder, w, intents, w2)
  {
    var ctx := PayContextOf(env, w1);
    PushFundsEffect(ctx, Funds(w1.tokens, w1.lamports), pushes);
    forall a | a in w.tokens
      ensures w2.tokens[a].amount + SumFor(SoldLegs(intents), a) + SumFor(PaidLegs(finder, intents), a)
           == w.tokens[a].amount + SumFor(PulledLegs(finder, intents), a) + SumFor(BoughtLegs(intents), a)
    {
      PayoutSums(ctx, finder, pushes, Sorted(finder, intents), a);
      SortedLegs(finder, intents, a);
    }
  }

  lemma BeginCommits(env: Env, now: int, finder: Finder, solver: Address, w: World, intents: seq<OrderIntent>,
                     ixs: seq<Ix>, i: nat, orders: seq<SettledOrder<Meta>>, pushes: seq<Push<Meta>>)
    returns (first: Outcome)
    requires Prepared(env, now, finder, solver, w, intents) && Reciprocal(env, ixs, i, pushes)
    requires ReadsAsBegin(env, finder, solver, i, intents, ixs[i], orders)
    requires ReadsAsFinalize(env, finder, i, intents, ixs[i + 1], pushes)
    ensures ProcessBegin(env, now, false, ixs, i, ixs[i], w) == Ok(first)
    ensures BatchLeaves(env, finder, w, intents, first.world)
  {
    var seen := PairedPushes(env, ixs, i, i + 1).value;
    forall k | 0 <= k < |seen| ensures PaysAll(finder, seen[k], Sorted(finder, intents)[k]) {
      assert seen[k] == Paired(pushes[k]);
    }
    BatchCommits(env, now, finder, solver, w, intents, orders, seen);
    var w1 := BatchOutcome(env, now, finder, solver, w, intents, orders, seen);
    first := ProcessBegin(env, now, false, ixs, i, ixs[i], w).value;
  }

  lemma FinalizeCommits(env: Env, finder: Finder, intents: seq<OrderIntent>, w1: World, ixs: seq<Ix>, i: nat,
                        pushes: seq<Push<Meta>>)
    returns (second: Outcome)
    requires PushFunds(PayContextOf(env, w1), Funds(w1.tokens, w1.lamports), pushes).Ok?
    requires Reciprocal(env, ixs, i, pushes) && ReadsAsFinalize(env, finder, i, intents, ixs[i + 1], pushes)
    ensures ProcessFinalize(env, false, ixs, i + 1, ixs[i + 1], w1) == Ok(second)
    ensures second.world == w1.(tokens := second.world.tokens, lamports := second.world.lamports)
    ensures PushFunds(PayContextOf(env, w1), Funds(w1.tokens, w1.lamports), pushes)
         == Ok(Funds(second.world.tokens, second.world.lamports))
  {
    second := ProcessFinalize(env, false, ixs, i + 1, ixs[i + 1], w1).value;
  }

  /** Both handlers succeed, one after the other. */
  lemma HandlersSucceed(env: Env, now: int, finder: Finder, solver: Address, w: World, intents: seq<OrderIntent>,
                        ixs: seq<Ix>, i: nat, orders: seq<SettledOrder<Meta>>, pushes: seq<Push<Meta>>)
    returns (first: Outcome, second: Outcome)
    requires Prepared(env, now, finder, solver, w, intents) && Simulate(TradesOf(intents)).Ok?
    requires Reciprocal(env, ixs, i, pushes) && ReadsAsBegin(env, finder, solver, i, intents, ixs[i], orders)
    requires ReadsAsFinalize(env, finder, i, intents, ixs[i + 1], pushes)
    ensures ProcessBegin(env, now, false, ixs, i, ixs[i], w) == Ok(first)
    ensures ProcessFinalize(env, false, ixs, i + 1, ixs[i + 1], first.world) == Ok(second)
    ensures Balanced(finder, w, intents, second.world)
    ensures forall j :: 0 <= j < |intents| ==> Completed(finder, w, second.world, intents[j])
  {
    first := BeginCommits(env, now, finder, solver, w, intents, ixs, i, orders, pushes);
    PayoutCommits(env, now, finder, solver, w, intents, first.world, i, ixs[i + 1], pushes);
    second := FinalizeCommits(env, finder, intents, first.world, ixs, i, pushes);
    PayoutOutcome(env, finder, w, intents, first.world, pushes, second.world);
    forall j | 0 <= j < |intents| ensures Completed(finder, w, second.world, intents[j]) {
      assert Completed(finder, w, first.world, intents[j]);
    }
  }

  lemma PairLeads(env: Env, now: int, tx: Tx, ixs: seq<Ix>, i: nat, w: World, first: Outcome, second: Outcome)
    requires |env.buffers.known| < 255 && |tx| == i + 2 && ixs == Ixs(tx)
    requires IsBegin(env, ixs[i]) && IsFinalize(env, ixs[i + 1])
    requires ProcessBegin(env, now, false, ixs, i, ixs[i], w) == Ok(first)
    requires ProcessFinalize(env, false, ixs, i + 1, ixs[i + 1], first.world) == Ok(second)
    ensures Leads(env, now, tx, i, w, first.world) && Leads(env, now, tx, i + 1, first.world, second.world)
  {
    BeginExec(env, now, Ixs(tx), i, tx[i], w);
    FinalizeExec(env, now, Ixs(tx), i + 1, tx[i + 1], first.world);
  }

  lemma PairSettles(env: Env, now: int, finder: Finder, solver: Address, w: World, intents: seq<OrderIntent>,
                    ixs: seq<Ix>, i: nat, orders: seq<SettledOrder<Meta>>, pushes: seq<Push<Meta>>, tx: Tx)
    returns (w1: World, w': World)
    requires Prepared(env, now, finder, solver, w, intents) && Simulate(TradesOf(intents)).Ok?
    requires Reciprocal(env, ixs, i, pushes) && ReadsAsBegin(env, finder, solver, i, intents, ixs[i], orders)
    requires ReadsAsFinalize(env, finder, i, intents, ixs[i + 1], pushes)
    requires |tx| == i + 2 && ixs == Ixs(tx)
    ensures Leads(env, now, tx, i, w, w1) && Leads(env, now, tx, i + 1, w1, w') && Balanced(finder, w, intents, w')
    ensures forall j :: 0 <= j < |intents| ==> Completed(finder, w, w', intents[j])
  {
    var first, second := HandlersSucceed(env, now, finder, solver, w, intents, ixs, i, orders, pushes);
    PairLeads(env, now, tx, ixs, i, w, first, second);
    w1, w' := first.world, second.world;
  }

  lemma IxsOf(tx: Tx) returns (ixs: seq<Ix>)
    ensures ixs == Ixs(tx) && forall k :: 0 <= k < |tx| ==> ixs[k] == tx[k].ix
  {
    ixs := Ixs(tx);
  }

  lemma BuiltPairSettles(env: Env, now: int, finder: Finder, ids: Ids, solver: Address, intents: seq<OrderIntent>,
                         tx: Tx, i: nat, w: World) returns (w1: World, w': World)
    requires Prepared(env, now, finder, solver, w, intents) && Simulate(TradesOf(intents)).Ok?
    requires ids.sysvar == env.sysvar && |tx| == i + 2 < 0x1_0001
    requires tx[i].ix == BeginIxOf(ids, env.programId, BeginFor(finder, solver, i, intents))
    requires tx[i + 1].ix == FinalizeIxOf(ids, env.programId, FinalizeFor(finder, i, intents))
    ensures Leads(env, now, tx, i, w, w1) && Leads(env, now, tx, i + 1, w1, w') && Balanced(finder, w, intents, w')
    ensures forall j :: 0 <= j < |intents| ==> Completed(finder, w, w', intents[j])
  {
    AllTokens(env, now, finder, w, intents);
    var ixs := IxsOf(tx);
    var orders, pushes := PairReadsBack(env, finder, ids, solver, intents, ixs, i);
    w1, w' := PairSettles(env, now, finder, solver, w, intents, ixs, i, orders, pushes, tx);
  }

  /** Fresh, live, distinct orders that cover each other, on accounts that hold and have delegated
      what they sell: after whatever set-up instructions led there, the pair the CLI builds for them
      commits, completes every order, and moves every balance by exactly the amounts of the
      orders. */
  lemma CliSettlementCommits(env: Env, now: int, finder: Finder, ids: Ids, solver: Address, intents: seq<OrderIntent>,
                             tx: Tx, i: nat, ws: seq<World>) returns (w': World)
    requires Prefix(env, now, tx, i, ws) && Prepared(env, now, finder, solver, ws[i], intents)
    requires Simulate(TradesOf(intents)).Ok? && ids.sysvar == env.sysvar && |tx| == i + 2 < 0x1_0001
    requires tx[i].ix == BeginIxOf(ids, env.programId, BeginFor(finder, solver, i, intents))
    requires tx[i + 1].ix == FinalizeIxOf(ids, env.programId, FinalizeFor(finder, i, intents))
    ensures RunTx(env, now, tx, ws[0]).Ok? && RunTx(env, now, tx, ws[0]).value.world == w'
    ensures Balanced(finder, ws[i], intents, w')
    ensures forall j :: 0 <= j < |intents| ==> Completed(finder, ws[i], w', intents[j])
  {
    var w1;
    w1, w' := BuiltPairSettles(env, now, finder, ids, solver, intents, tx, i, ws[i]);
    var longer := ExtendPrefix(env, now, tx, i, ws, w1);
    longer := ExtendPrefix(env, now, tx, i + 1, longer, w');
    CommittedRuns(env, now, tx, longer, 0);
  }
}
