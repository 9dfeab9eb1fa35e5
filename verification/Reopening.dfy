/** A complete order can come back: the transactions of this program that bring it back, funded from
    the ledger they start on, and so the exact conditions under which a cancellation is final and a
    completed order stays completed. */
module Reopening {
  import opened Basics
  import opened Intent
  import opened OrderAccounts
  import opened Fills
  import opened KnownBuffers
  import opened SettleWire
  import opened SettleBuild
  import opened Ledger
  import opened Worlds
  import opened Settle
  import opened Transactions
  import opened Custody
  import opened Commits
  import opened Histories
  import opened Client
  import opened Lifecycle
  import opened Receipts
  import StateAccounts
  import OrderHandlers

  // ---------------------------------------------------------------------------------------
  // One order's settlement
  // ---------------------------------------------------------------------------------------

  /** The fixed addresses; with no mint named, only the sysvar matters. */
  function IdsOf(env: Env): (ids: Ids)
  {
    Ids(env.sysvar, env.sysvar, env.sysvar)
  }

  /** Everything a settlement of one order names, what it pulls and pays, and who pays for creating the
      order again. */
  datatype Plan = Plan(a: Address, intent: OrderIntent, solver: Address, destination: Address,
                       source: Address, bump: Byte, amountIn: U64, amountOut: U64, creator: Address)

  /** One pull from the order. */
  function BeginFor(env: Env, p: Plan): (b: BeginBuilder)
    ensures b.Parallel()
  {
    BeginBuilder(env.statePda, p.solver, 1, 0, None, [p.a], [p.intent.sell.account], [None],
                 [[Pull(p.destination, p.amountIn)]])
  }

  /** One payout to the order. */
  function FinalizeFor(env: Env, p: Plan): (f: FinalizeBuilder)
    ensures f.Parallel()
  {
    FinalizeBuilder(env.statePda, 0, None, [p.source], [BuyAccount(p.intent)], [None], [p.bump], [p.amountOut])
  }

  function OrderFor(env: Env, p: Plan): (o: SettledOrder<Meta>)
    ensures |o.destinations| == |o.amounts|
  {
    Expected(IdsOf(env), OrderEntry(p.a, p.intent.sell.account, None, [Pull(p.destination, p.amountIn)]))
  }

  function PushFor(env: Env, p: Plan): (push: Push<Meta>)
  {
    Push(ReadOnly(p.source), ReadOnly(BuyAccount(p.intent)), ReadOnly(env.sysvar), p.bump, p.amountOut)
  }

  /** An instruction that parses as the begin of the plan, linking to position 1. */
  ghost predicate BeginsFor(env: Env, p: Plan, ix: Ix)
  {
    && IsBegin(env, ix) && LinkOf(ix) == 1
    && var r := ParseBegin(ix.data, ix.metas);
       && r.Ok? && r.value.finalizeIx == 1 && r.value.solver == Meta(p.solver, true)
       && r.value.sysvar.key == env.sysvar && r.value.statePda.key == env.statePda
       && SplitOrders(r.value.orders) == [OrderFor(env, p)]
  }

  /** An instruction that parses as the finalize of the plan, linking to position 0. */
  ghost predicate FinalizesFor(env: Env, p: Plan, ix: Ix)
  {
    && IsFinalize(env, ix) && LinkOf(ix) == 0
    && ParseFinalize(ix.data, ix.metas)
       == Ok(FinalizeInput(0, ReadOnly(env.sysvar), ReadOnly(env.statePda), [PushFor(env, p)]))
    && IntrospectPushes(ix.data, Keys(ix.metas)) == Ok([Paired(PushFor(env, p))])
  }

  lemma BeginIsBuilt(env: Env, p: Plan) returns (ix: Ix)
    ensures BeginsFor(env, p, ix)
  {
    var ids, b := IdsOf(env), BeginFor(env, p);
    ix := BeginIxOf(ids, env.programId, b);
    assert forall i :: 0 <= i < |b.pulls| ==> |b.pulls[i]| <= 255;
    BeginRoundTrip(ids, b);
    var orders := SplitOrders(ParseBegin(BeginData(b), BeginMetas(ids, b)).value.orders);
    assert orders[0] == OrderFor(env, p);
    ParsedBeginLink(ix);
  }

  lemma FinalizeIsBuilt(env: Env, p: Plan) returns (ix: Ix)
    ensures FinalizesFor(env, p, ix)
  {
    var ids, f := IdsOf(env), FinalizeFor(env, p);
    ix := FinalizeIxOf(ids, env.programId, f);
    FinalizeRoundTrip(ids, f);
    IntrospectionAgrees(FinalizeData(f), FinalizeMetas(ids, f));
    assert BuiltPushes(ids, f) == [PushFor(env, p)];
    var seen := IntrospectPushes(FinalizeData(f), Keys(FinalizeMetas(ids, f))).value;
    assert |seen| == 1 && seen[0] == Paired(PushFor(env, p));
    assert seen == [Paired(PushFor(env, p))];
    ParsedFinalizeLink(ix);
  }

  /** A link to the right kind of instruction that links back passes the reciprocity check. */
  lemma LinksSuffice(env: Env, ixs: seq<Ix>, current: nat, counterpart: nat)
    requires counterpart < |ixs| && LinkOf(ixs[counterpart]) == current < 0x1_0000
    ensures IsBegin(env, ixs[counterpart]) ==> ValidateCounterpart(env, ixs, current, counterpart, BeginSettle).Ok?
    ensures IsFinalize(env, ixs[counterpart]) ==> ValidateCounterpart(env, ixs, current, counterpart, FinalizeSettle).Ok?
  {
    var data := ixs[counterpart].data;
    assert data[1..][0] == data[1] && data[1..][1] == data[2];
  }

  /** The pairing checks pass, and the begin sees the push. */
  lemma PairSeen(env: Env, p: Plan, begin: Ix, final: Ix, ixs: seq<Ix>)
    requires BeginsFor(env, p, begin) && FinalizesFor(env, p, final) && ixs == [begin, final]
    ensures PairedPushes(env, ixs, 0, 1) == Ok([Paired(PushFor(env, p))])
    ensures ValidateCounterpart(env, ixs, 1, 0, BeginSettle).Ok?
  {
    LinksSuffice(env, ixs, 0, 1);
    LinksSuffice(env, ixs, 1, 0);
  }

  /** The stored order is live, and the settlement is acceptable on top of what it already filled. */
  ghost predicate Takes(env: Env, p: Plan, b: OrderBody)
  {
    && b.intent == p.intent && !b.cancelled && env.orderAddress(b.intent, b.bump) == Some(p.a)
    && Acceptable(b.intent, b.withdrawn, b.received, p.amountIn, p.amountOut)
  }

  /** The order is stored and takes the settlement, the solver is listed and the source is accepted. */
  ghost predicate Open(env: Env, now: int, w: World, p: Plan)
  {
    && env.Sound() && Denotable(p.intent.buy)
    && StateAccounts.Attachable(w.state) && StateAccounts.IsSolver(w.state, p.solver)
    && p.a in w.orders && Takes(env, p, w.orders[p.a])
    && now <= p.intent.validTo
    && ValidateBuffer(env.buffers, p.source, BuyMint(p.intent), p.bump).Ok? && p.source != BuyAccount(p.intent)
  }

  /** The token ledger covers the settlement: the seller's account holds the amount and has delegated
      it, and what the source then holds covers the payout of tokens. */
  ghost predicate TokensAfford(env: Env, t: Tokens, mints: map<Address, Mint>, p: Plan)
  {
    var o, push, ctx := OrderFor(env, p), PushFor(env, p), PayContext(env.nativeBuffer, env.statePda, env.sysvar, mints);
    && Matched(t, o) && WellGrouped([o]) && Funded(env.statePda, t, [o])
    && t[p.intent.sell.account].owner == p.intent.owner && t[p.intent.sell.account].mint == p.intent.sell.mint
    && (p.intent.buy.Token? ==> Payable(ctx, t, push))
    && forall a :: a in t ==>
         && Debited(ctx, [push], false, a) + SoldFrom([o], a) <= t[a].amount + BroughtInto([o], a)
         && t[a].amount + BroughtInto([o], a) + Credited(ctx, [push], false, a) <= U64_MAX
  }

  ghost predicate FitsU64(l: Lamports)
  {
    forall a :: Get(l, a) <= U64_MAX
  }

  /** The lamports cover a payout of native SOL, and leave something in the native buffer. */
  ghost predicate LamportsAfford(env: Env, l: Lamports, intent: OrderIntent, amount: U64)
  {
    && FitsU64(l)
    && (intent.buy.Native? ==>
          && amount < Get(l, env.nativeBuffer)
          && Get(l, BuyAccount(intent)) + amount <= U64_MAX)
  }

  lemma OrderForReady(env: Env, now: int, w: World, p: Plan)
    requires Open(env, now, w, p) && TokensAfford(env, w.tokens, w.mints, p)
    ensures Ready(env, now, w, OrderFor(env, p), Paired(PushFor(env, p)))
    ensures Sum(OrderFor(env, p).amounts) == p.amountIn
  {
    var o := OrderFor(env, p);
    assert o.amounts == [p.amountIn] && o.amounts[1..] == [];
  }

  /** The batch settles the order. */
  lemma BatchForRuns(env: Env, now: int, w: World, p: Plan)
    requires Open(env, now, w, p) && TokensAfford(env, w.tokens, w.mints, p)
    ensures var r := SettleOrders(env, now, w, [OrderFor(env, p)], [Paired(PushFor(env, p))], None);
      && r.Ok? && r.value.world == w.(orders := r.value.world.orders, tokens := r.value.world.tokens)
      && r.value.events == [Filled(p.a, p.amountIn, p.amountOut)]
  {
    var o, push := OrderFor(env, p), Paired(PushFor(env, p));
    OrderForReady(env, now, w, p);
    BatchSucceeds(env, now, w, [o], [push], None);
    BatchShape(env, now, w, [o], [push], None);
    ProcessOrderEffect(env, now, w, o, push);
    assert [o][1..] == [] && [push][1..] == [];
  }

  /** The events of the settlement. */
  ghost predicate FillsAsPlanned(p: Plan, events: seq<Event>)
  {
    |events| == 2 && events[0].Begun? && events[1] == Filled(p.a, p.amountIn, p.amountOut)
  }

  /** The begin settles the order and leaves the payout covered. */
  lemma BeginForRuns(env: Env, now: int, w: World, p: Plan, begin: Ix, final: Ix, ixs: seq<Ix>) returns (first: Outcome)
    requires Open(env, now, w, p) && TokensAfford(env, w.tokens, w.mints, p)
    requires BeginsFor(env, p, begin) && FinalizesFor(env, p, final) && ixs == [begin, final]
    ensures ProcessBegin(env, now, false, ixs, 0, begin, w) == Ok(first) && FillsAsPlanned(p, first.events)
    ensures first.world == w.(orders := first.world.orders, tokens := first.world.tokens)
    ensures TokensCover(PayContextOf(env, w), first.world.tokens, [PushFor(env, p)])
  {
    PairSeen(env, p, begin, final, ixs);
    BatchForRuns(env, now, w, p);
    first := ProcessBegin(env, now, false, ixs, 0, begin, w).value;
    TokensStillCover(env, now, w, p, first.world);
  }

  lemma TokensStillCover(env: Env, now: int, w: World, p: Plan, w1: World)
    requires Open(env, now, w, p) && TokensAfford(env, w.tokens, w.mints, p)
    requires SettleOrders(env, now, w, [OrderFor(env, p)], [Paired(PushFor(env, p))], None).Ok?
    requires w1 == SettleOrders(env, now, w, [OrderFor(env, p)], [Paired(PushFor(env, p))], None).value.world
    ensures TokensCover(PayContextOf(env, w), w1.tokens, [PushFor(env, p)])
  {
    var o, push, ctx := OrderFor(env, p), PushFor(env, p), PayContextOf(env, w);
    BatchMoves(env, now, w, [o], [Paired(push)], None, p.a);
    forall a | a in w1.tokens
      ensures Debited(ctx, [push], false, a) <= w1.tokens[a].amount
      ensures w1.tokens[a].amount + Credited(ctx, [push], false, a) <= U64_MAX
    {
      BatchMoves(env, now, w, [o], [Paired(push)], None, a);
    }
    NativeExactly(env, p.source, BuyMint(p.intent), p.bump);
    if p.intent.buy.Token? {
      BatchDelegatesNothing(env, now, w, [o], [Paired(push)], None, p.source);
    }
  }

  lemma OnePush(ctx: PayContext, push: Push<Meta>, native: bool, a: Address)
    ensures Debited(ctx, [push], native, a) == if IsNative(ctx, push) == native && push.source.key == a then push.amount else 0
    ensures Credited(ctx, [push], native, a) == if IsNative(ctx, push) == native && push.destination.key == a then push.amount else 0
  {
    assert [push][1..] == [];
    assert Debited(ctx, [push][1..], native, a) == 0 && Credited(ctx, [push][1..], native, a) == 0;
  }

  lemma LamportsPay(env: Env, l: Lamports, p: Plan, ctx: PayContext)
    requires ctx.nativeBuffer == env.nativeBuffer && LamportsAfford(env, l, p.intent, p.amountOut)
    requires p.source != BuyAccount(p.intent) && (p.source == env.nativeBuffer <==> p.intent.buy.Native?)
    ensures LamportsCover(ctx, l, [PushFor(env, p)])
    ensures AnyNative(ctx, [PushFor(env, p)]) ==>
      Debited(ctx, [PushFor(env, p)], true, ctx.nativeBuffer) < Get(l, ctx.nativeBuffer)
  {
    var push := PushFor(env, p);
    forall a ensures Debited(ctx, [push], true, a) <= Get(l, a) && Get(l, a) + Credited(ctx, [push], true, a) <= U64_MAX {
      OnePush(ctx, push, true, a);
    }
    OnePush(ctx, push, true, env.nativeBuffer);
  }

  lemma FinalizeForRuns(env: Env, now: int, w: World, p: Plan, begin: Ix, final: Ix, ixs: seq<Ix>, w1: World)
    returns (second: Outcome)
    requires Open(env, now, w, p) && LamportsAfford(env, w1.lamports, p.intent, p.amountOut)
    requires w1.mints == w.mints && TokensCover(PayContextOf(env, w), w1.tokens, [PushFor(env, p)])
    requires BeginsFor(env, p, begin) && FinalizesFor(env, p, final) && ixs == [begin, final]
    ensures ProcessFinalize(env, false, ixs, 1, final, w1) == Ok(second) && second.events == []
  {
    PairSeen(env, p, begin, final, ixs);
    var ctx := PayContextOf(env, w1);
    assert ctx == PayContextOf(env, w);
    NativeExactly(env, p.source, BuyMint(p.intent), p.bump);
    LamportsPay(env, w1.lamports, p, ctx);
    PayoutSucceeds(ctx, Funds(w1.tokens, w1.lamports), [PushFor(env, p)]);
    second := ProcessFinalize(env, false, ixs, 1, final, w1).value;
  }

  lemma PairRuns(env: Env, now: int, tx: Tx, ixs: seq<Ix>, w: World, first: Outcome, second: Outcome) returns (o: Outcome)
    requires |env.buffers.known| < 255 && |tx| == 2 && ixs == Ixs(tx)
    requires IsBegin(env, ixs[0]) && IsFinalize(env, ixs[1]) && second.events == []
    requires ProcessBegin(env, now, false, ixs, 0, ixs[0], w) == Ok(first)
    requires ProcessFinalize(env, false, ixs, 1, ixs[1], first.world) == Ok(second)
    ensures RunTx(env, now, tx, w) == Ok(o) && o.events == first.events
  {
    BeginExec(env, now, Ixs(tx), 0, tx[0], w);
    FinalizeExec(env, now, Ixs(tx), 1, tx[1], first.world);
    LastTwoSteps(env, now, tx, w, first, second);
    o := Outcome(second.world, first.events + second.events);
  }

  /** Every instruction is this program's own. */
  ghost predicate OwnTx(env: Env, tx: Tx)
  {
    forall k :: 0 <= k < |tx| ==> !IsOpaque(env, tx[k].ix)
  }

  lemma PairTx(env: Env, begin: Ix, final: Ix) returns (tx: Tx, ixs: seq<Ix>)
    requires IsBegin(env, begin) && IsFinalize(env, final)
    ensures |tx| == 2 && ixs == Ixs(tx) && ixs == [begin, final]
    ensures OwnTx(env, tx)
  {
    tx := [Op(begin, []), Op(final, [])];
    ixs := Ixs(tx);
  }

  lemma HandlersRun(env: Env, now: int, w: World, p: Plan, begin: Ix, final: Ix, ixs: seq<Ix>)
    returns (first: Outcome, second: Outcome)
    requires Open(env, now, w, p) && TokensAfford(env, w.tokens, w.mints, p) && LamportsAfford(env, w.lamports, p.intent, p.amountOut)
    requires BeginsFor(env, p, begin) && FinalizesFor(env, p, final) && ixs == [begin, final]
    ensures ProcessBegin(env, now, false, ixs, 0, begin, w) == Ok(first) && FillsAsPlanned(p, first.events)
    ensures ProcessFinalize(env, false, ixs, 1, final, first.world) == Ok(second) && second.events == []
  {
    first := BeginForRuns(env, now, w, p, begin, final, ixs);
    second := FinalizeForRuns(env, now, w, p, begin, final, ixs, first.world);
  }

  lemma PairIsBuilt(env: Env, p: Plan) returns (begin: Ix, final: Ix)
    ensures BeginsFor(env, p, begin) && FinalizesFor(env, p, final)
    ensures IsBegin(env, begin) && IsFinalize(env, final)
  {
    begin := BeginIsBuilt(env, p);
    final := FinalizeIsBuilt(env, p);
  }

  /** An order that is stored live, fresh or partly filled, settles for any amounts within its limits: with
      both sides funded, a pair of instructions commits and fills it by exactly those amounts. */
  lemma OpenOrderSettles(env: Env, now: int, w: World, p: Plan) returns (tx: Tx, o: Outcome)
    requires Open(env, now, w, p) && TokensAfford(env, w.tokens, w.mints, p) && LamportsAfford(env, w.lamports, p.intent, p.amountOut)
    ensures RunTx(env, now, tx, w) == Ok(o) && FillsAsPlanned(p, o.events) && OwnTx(env, tx)
  {
    var begin, final := PairIsBuilt(env, p);
    var ixs;
    tx, ixs := PairTx(env, begin, final);
    var first, second := HandlersRun(env, now, w, p, begin, final, ixs);
    o := PairRuns(env, now, tx, ixs, w, first, second);
  }

  // ---------------------------------------------------------------------------------------
  // Closing and creating anew
  // ---------------------------------------------------------------------------------------

  /** One instruction of this program on its own. */
  lemma SingleRuns(env: Env, now: int, ix: Ix, w: World, outcome: Outcome) returns (tx: Tx)
    requires |env.buffers.known| < 255 && !IsOpaque(env, ix)
    requires forall ixs: seq<Ix> :: Dispatch(env, now, false, ixs, 0, ix, w) == Ok(outcome)
    ensures RunTx(env, now, tx, w) == Ok(outcome) && OwnTx(env, tx)
  {
    tx := [Op(ix, [])];
    assert Exec(env, now, Ixs(tx), 0, tx[0], w) == Ok(outcome);
    assert RunFrom(env, now, tx, outcome.world, 1) == Ok(Outcome(outcome.world, []));
    assert outcome.events + [] == outcome.events;
  }

  ghost function Closed(w: World, a: Address): (w': World)
    requires a in w.orders && OrderHandlers.CloseInto(w.lamports, a, w.orders[a].createdBy).Ok?
  {
    w.(orders := w.orders - {a}, lamports := OrderHandlers.CloseInto(w.lamports, a, w.orders[a].createdBy).value)
  }

  /** Anyone closes the complete order. */
  lemma ReclaimRuns(env: Env, now: int, w: World, a: Address) returns (tx: Tx, o: Outcome)
    requires |env.buffers.known| < 255 && Complete(w.orders, a)
    requires env.orderAddress(w.orders[a].intent, w.orders[a].bump) == Some(a)
    requires OrderHandlers.CloseInto(w.lamports, a, w.orders[a].createdBy).Ok?
    ensures RunTx(env, now, tx, w) == Ok(o) && o.events == [Reclaimed(a, {})] && o.world == Closed(w, a)
    ensures OwnTx(env, tx)
  {
    var metas := [Meta(a, false), Meta(w.orders[a].createdBy, false)];
    OrderHandlers.FilledClosedByAnyone(env, now, w, a);
    var r := OrderHandlers.ProcessReclaimOrder(env, now, w, metas, []);
    assert Signers(metas) == {};
    var ix := Ix(env.programId, metas, [5]);
    assert ix.data[1..] == [];
    o := r.value;
    tx := SingleRuns(env, now, ix, w, o);
  }

  /** The creation that the owner, or the authority for the settlement's own orders, signs, and that
      `creator` pays for. */
  function CreationIx(env: Env, w: World, p: Plan): (ix: Ix)
    requires StateAccounts.Attachable(w.state)
  {
    if p.intent.owner == env.statePda then
      Ix(env.programId, [Meta(OrderHandlers.OrderAuthority(w), true), Meta(p.creator, true),
                         Meta(env.statePda, false), Meta(p.a, false), Meta(env.sysvar, false)],
         [10] + EncodeIntent(p.intent))
    else
      Ix(env.programId, [Meta(p.intent.owner, true), Meta(p.creator, true), Meta(p.a, false), Meta(env.sysvar, false)],
         [2] + EncodeIntent(p.intent))
  }

  /** The creator, no account of the program, pays the whole rent. */
  ghost predicate CreatorPays(env: Env, w: World, p: Plan)
  {
    && !ProgramOwned(env, w, p.creator) && p.creator != p.a
    && Get(w.lamports, p.a) == 0 && env.rent(ORDER_SIZE) <= Get(w.lamports, p.creator) && env.rent(ORDER_SIZE) <= U64_MAX
  }

  /** The creator's lamports less the rent, which the order now holds. */
  function RentPaid(env: Env, l: Lamports, p: Plan): (l': Lamports)
    requires env.rent(ORDER_SIZE) <= Get(l, p.creator)
  {
    var rent := env.rent(ORDER_SIZE);
    if rent == 0 then l else l[p.creator := Get(l, p.creator) - rent][p.a := rent]
  }

  /** The world once the order is created anew. */
  function Recreated(env: Env, w: World, p: Plan, bump: Byte): (w': World)
    requires env.rent(ORDER_SIZE) <= Get(w.lamports, p.creator)
  {
    w.(orders := w.orders[p.a := OrderBody(bump, false, 0, 0, p.creator, p.intent)],
       lamports := RentPaid(env, w.lamports, p))
  }

  /** With its intent accepted and its rent paid by the creator, the order is created. */
  lemma NewOrderRuns(env: Env, w: World, p: Plan, bump: Byte, signers: set<Address>)
    requires CreatorPays(env, w, p) && Denotable(p.intent.buy)
    requires FindOrder(env, p.intent) == Some((p.a, bump)) && !ProgramOwned(env, w, p.a)
    ensures OrderHandlers.NewOrder(env, w, p.a, EncodeIntent(p.intent), p.intent.owner, Meta(p.creator, true), false, signers)
      == Ok(Outcome(Recreated(env, w, p, bump),
                    [Created(p.a, OrderBody(bump, false, 0, 0, p.creator, p.intent), signers,
                             OrderHandlers.AuthorityLabel(w))]))
  {
    IntentRoundTrip(p.intent);
    CheckAgreesWithDecode(EncodeIntent(p.intent));
  }

  lemma OwnerCreates(env: Env, w: World, p: Plan, bump: Byte)
    requires CreatorPays(env, w, p) && Denotable(p.intent.buy)
    requires FindOrder(env, p.intent) == Some((p.a, bump)) && !ProgramOwned(env, w, p.a)
    requires StateAccounts.Attachable(w.state) && p.intent.owner != env.statePda
    ensures OrderHandlers.ProcessCreateOrder(env, w, CreationIx(env, w, p).metas, EncodeIntent(p.intent))
      == Ok(Outcome(Recreated(env, w, p, bump), CreationEvents(env, w, p, bump)))
  {
    NewOrderRuns(env, w, p, bump, Signers(CreationIx(env, w, p).metas));
  }

  lemma AuthorityCreates(env: Env, w: World, p: Plan, bump: Byte)
    requires CreatorPays(env, w, p) && Denotable(p.intent.buy)
    requires FindOrder(env, p.intent) == Some((p.a, bump)) && !ProgramOwned(env, w, p.a)
    requires StateAccounts.Attachable(w.state) && p.intent.owner == env.statePda
    ensures OrderHandlers.ProcessCreateSettlementOwnedOrder(env, w, CreationIx(env, w, p).metas, EncodeIntent(p.intent))
      == Ok(Outcome(Recreated(env, w, p, bump), CreationEvents(env, w, p, bump)))
  {
    NewOrderRuns(env, w, p, bump, Signers(CreationIx(env, w, p).metas));
  }

  lemma CreationDispatches(env: Env, now: int, ixs: seq<Ix>, ix: Ix, w: World, o: Outcome)
    requires |env.buffers.known| < 255 && |ix.data| > 0 && (ix.data[0] == 2 || ix.data[0] == 10)
    requires (if ix.data[0] == 2 then OrderHandlers.ProcessCreateOrder(env, w, ix.metas, ix.data[1..])
              else OrderHandlers.ProcessCreateSettlementOwnedOrder(env, w, ix.metas, ix.data[1..])) == Ok(o)
    ensures Dispatch(env, now, false, ixs, 0, ix, w) == Ok(o)
  {
    DispatchTable(env, now, false, ixs, 0, ix, w);
  }

  lemma CreationBytes(env: Env, w: World, p: Plan)
    requires StateAccounts.Attachable(w.state)
    ensures var data := CreationIx(env, w, p).data;
      && |data| > 0 && data[1..] == EncodeIntent(p.intent) && data[0] == if p.intent.owner == env.statePda then 10 else 2
  {}

  lemma CreationRuns(env: Env, now: int, ixs: seq<Ix>, w: World, p: Plan, bump: Byte)
    requires |env.buffers.known| < 255 && StateAccounts.Attachable(w.state) && CreatorPays(env, w, p)
    requires Denotable(p.intent.buy) && FindOrder(env, p.intent) == Some((p.a, bump)) && !ProgramOwned(env, w, p.a)
    ensures Dispatch(env, now, false, ixs, 0, CreationIx(env, w, p), w)
      == Ok(Outcome(Recreated(env, w, p, bump), CreationEvents(env, w, p, bump)))
  {
    CreationBytes(env, w, p);
    if p.intent.owner == env.statePda {
      AuthorityCreates(env, w, p, bump);
    } else {
      OwnerCreates(env, w, p, bump);
    }
    CreationDispatches(env, now, ixs, CreationIx(env, w, p), w,
                       Outcome(Recreated(env, w, p, bump), CreationEvents(env, w, p, bump)));
  }

  ghost function CreationEvents(env: Env, w: World, p: Plan, bump: Byte): (events: seq<Event>)
    requires StateAccounts.Attachable(w.state)
  {
    [Created(p.a, OrderBody(bump, false, 0, 0, p.creator, p.intent), Signers(CreationIx(env, w, p).metas),
             OrderHandlers.AuthorityLabel(w))]
  }

  lemma RecreationRuns(env: Env, now: int, w: World, p: Plan, bump: Byte) returns (tx: Tx, o: Outcome)
    requires |env.buffers.known| < 255 && StateAccounts.Attachable(w.state) && CreatorPays(env, w, p)
    requires Denotable(p.intent.buy) && FindOrder(env, p.intent) == Some((p.a, bump)) && !ProgramOwned(env, w, p.a)
    ensures RunTx(env, now, tx, w) == Ok(o) && o.world == Recreated(env, w, p, bump)
    ensures |o.events| == 1 && o.events[0].Created?
    ensures OwnTx(env, tx)
  {
    var ix := CreationIx(env, w, p);
    o := Outcome(Recreated(env, w, p, bump), CreationEvents(env, w, p, bump));
    forall ixs: seq<Ix> ensures Dispatch(env, now, false, ixs, 0, ix, w) == Ok(o) {
      CreationRuns(env, now, ixs, w, p, bump);
    }
    tx := SingleRuns(env, now, ix, w, o);
  }

  // ---------------------------------------------------------------------------------------
  // The history
  // ---------------------------------------------------------------------------------------

  /** The order is stored at its canonical address, and the ledgers this world already has can pay
      for closing it, creating it again and settling it again in full. */
  ghost predicate Reopenable(env: Env, w: World, p: Plan)
  {
    && env.Sound() && StateAccounts.WellFormed(w.state) && StateAccounts.IsSolver(w.state, p.solver)
    && p.amountIn == p.intent.sellAmount && p.amountOut == p.intent.buyAmount
    && p.a in w.orders && w.orders[p.a].intent == p.intent && Denotable(p.intent.buy)
    && env.orderAddress(p.intent, w.orders[p.a].bump) == Some(p.a)
    && FindOrder(env, p.intent).Some? && FindOrder(env, p.intent).value.0 == p.a
    && p.a != env.statePda && p.a != env.nativeBuffer
    && ValidateBuffer(env.buffers, p.source, BuyMint(p.intent), p.bump).Ok? && p.source != BuyAccount(p.intent)
    && TokensAfford(env, w.tokens, w.mints, p)
    && OrderHandlers.CloseInto(w.lamports, p.a, w.orders[p.a].createdBy).Ok?
    && !ProgramOwned(env, w, p.creator) && env.rent(ORDER_SIZE) <= Get(w.lamports, p.creator)
    && FitsU64(w.lamports)
    && (p.intent.buy.Native? ==>
          && p.amountOut < Get(w.lamports, env.nativeBuffer)
          && Get(w.lamports, BuyAccount(p.intent)) + Get(w.lamports, p.a) + env.rent(ORDER_SIZE) + p.amountOut
             <= U64_MAX)
  }

  lemma ClosedIsPayable(env: Env, w: World, p: Plan)
    requires Reopenable(env, w, p)
    ensures CreatorPays(env, Closed(w, p.a), p) && !ProgramOwned(env, Closed(w, p.a), p.a)
  {
    assert Get(w.lamports, p.creator) <= U64_MAX;
  }

  /** Closing the order and paying its rent again leaves room for a native payout. */
  lemma RoomKept(env: Env, l: Lamports, p: Plan, createdBy: Address, closed: Lamports, l': Lamports)
    requires FitsU64(l) && OrderHandlers.CloseInto(l, p.a, createdBy) == Ok(closed)
    requires p.creator != p.a && p.creator != env.nativeBuffer && p.a != env.nativeBuffer
    requires env.rent(ORDER_SIZE) <= Get(closed, p.creator) && env.rent(ORDER_SIZE) <= U64_MAX
    requires l' == RentPaid(env, closed, p)
    requires p.intent.buy.Native? ==>
      && p.amountOut < Get(l, env.nativeBuffer)
      && Get(l, BuyAccount(p.intent)) + Get(l, p.a) + env.rent(ORDER_SIZE) + p.amountOut <= U64_MAX
    ensures LamportsAfford(env, l', p.intent, p.amountOut)
  {
    forall x ensures Get(l', x) <= U64_MAX {
      assert Get(l, x) <= U64_MAX;
    }
  }

  /** A full settlement is acceptable on a fresh order. */
  lemma FullIsAcceptable(intent: OrderIntent)
    ensures Acceptable(intent, 0, 0, intent.sellAmount, intent.buyAmount)
  {
    assert intent.buyAmount * intent.sellAmount == intent.sellAmount * intent.buyAmount;
  }

  /** Closing and creating anew leaves the order open. */
  lemma RecreatedIsOpen(env: Env, now: int, w: World, p: Plan, closed: World)
    requires Reopenable(env, w, p) && now <= p.intent.validTo && closed == Closed(w, p.a)
    requires env.rent(ORDER_SIZE) <= Get(closed.lamports, p.creator)
    ensures Open(env, now, Recreated(env, closed, p, FindOrder(env, p.intent).value.1), p)
  {
    FullIsAcceptable(p.intent);
  }

  /** A stranger closes the order, and its owner creates it again. */
  lemma ClosedAndRecreated(env: Env, now: int, w: World, p: Plan)
    returns (tx1: Tx, o1: Outcome, tx2: Tx, o2: Outcome)
    requires Reopenable(env, w, p) && now <= p.intent.validTo && Complete(w.orders, p.a)
    ensures RunTx(env, now, tx1, w) == Ok(o1) && RunTx(env, now, tx2, o1.world) == Ok(o2)
    ensures o1.events == [Reclaimed(p.a, {})] && |o2.events| == 1 && o2.events[0].Created?
    ensures Open(env, now, o2.world, p) && o2.world.tokens == w.tokens && o2.world.mints == w.mints
    ensures LamportsAfford(env, o2.world.lamports, p.intent, p.amountOut)
    ensures OwnTx(env, tx1) && OwnTx(env, tx2)
  {
    var bump := FindOrder(env, p.intent).value.1;
    tx1, o1 := ReclaimRuns(env, now, w, p.a);
    ClosedIsPayable(env, w, p);
    tx2, o2 := RecreationRuns(env, now, o1.world, p, bump);
    RecreatedIsOpen(env, now, w, p, o1.world);
    RoomKept(env, w.lamports, p, w.orders[p.a].createdBy, o1.world.lamports, o2.world.lamports);
  }

  /** Every instruction of the history is this program's own. */
  ghost predicate OwnInstructions(env: Env, history: seq<Attempt>)
  {
    forall h :: 0 <= h < |history| ==> OwnTx(env, history[h].tx)
  }

  /** A history that starts with a committed transaction. */
  lemma AttemptFirst(env: Env, now: int, w: World, tx: Tx, o: Outcome, rest: seq<Attempt>, run: seq<Stamped>)
    returns (history: seq<Attempt>)
    requires |env.buffers.known| < 255 && RunTx(env, now, tx, w) == Ok(o)
    requires RunHistory(env, o.world, rest).1 == run && ClockAdvances(now, rest) && OwnInstructions(env, rest)
    requires OwnTx(env, tx)
    ensures RunHistory(env, w, history).1 == Stamp(now, o.events) + run
    ensures ClockAdvances(now, history) && OwnInstructions(env, history)
  {
    history := [Attempt(now, tx)] + rest;
    assert history[1..] == rest;
  }

  lemma ThreeTransactions(env: Env, now: int, w: World, p: Plan)
    returns (tx1: Tx, o1: Outcome, tx2: Tx, o2: Outcome, tx3: Tx, o3: Outcome)
    requires Reopenable(env, w, p) && now <= p.intent.validTo && Complete(w.orders, p.a)
    ensures RunTx(env, now, tx1, w) == Ok(o1) && RunTx(env, now, tx2, o1.world) == Ok(o2)
    ensures RunTx(env, now, tx3, o2.world) == Ok(o3)
    ensures o1.events == [Reclaimed(p.a, {})] && |o2.events| == 1 && o2.events[0].Created? && FillsAsPlanned(p, o3.events)
    ensures OwnTx(env, tx1) && OwnTx(env, tx2) && OwnTx(env, tx3)
  {
    tx1, o1, tx2, o2 := ClosedAndRecreated(env, now, w, p);
    tx3, o3 := OpenOrderSettles(env, now, o2.world, p);
  }

  /** A complete order that has not expired comes back, cancelled or not, by instructions of this
      program alone: a stranger closes it, its owner (or the authority) creates it again, and a solver
      settles it again in full. */
  lemma CompleteOrderReopens(env: Env, now: int, w: World, p: Plan) returns (history: seq<Attempt>)
    requires Reopenable(env, w, p) && now <= p.intent.validTo && Complete(w.orders, p.a)
    ensures ClockAdvances(now, history) && OwnInstructions(env, history)
    ensures var run := RunHistory(env, w, history).1;
      && Settles(run, p.a) && !ReclaimedByOwner(run, p.a, p.intent.owner)
      && TotalWithdrawn(run, p.a) == p.intent.sellAmount && TotalReceived(run, p.a) == p.intent.buyAmount
  {
    var tx1, o1, tx2, o2, tx3, o3 := ThreeTransactions(env, now, w, p);
    history := ThreeAttempts(env, now, w, tx1, o1, tx2, o2, tx3, o3);
    ReopenedRun(now, p, o1.events, o2.events, o3.events);
  }

  lemma ThreeAttempts(env: Env, now: int, w: World, tx1: Tx, o1: Outcome, tx2: Tx, o2: Outcome, tx3: Tx, o3: Outcome)
    returns (history: seq<Attempt>)
    requires |env.buffers.known| < 255
    requires RunTx(env, now, tx1, w) == Ok(o1) && RunTx(env, now, tx2, o1.world) == Ok(o2)
    requires RunTx(env, now, tx3, o2.world) == Ok(o3)
    requires OwnTx(env, tx1) && OwnTx(env, tx2) && OwnTx(env, tx3)
    ensures ClockAdvances(now, history) && OwnInstructions(env, history)
    ensures RunHistory(env, w, history).1 == Stamp(now, o1.events) + (Stamp(now, o2.events) + (Stamp(now, o3.events) + []))
  {
    history := AttemptFirst(env, now, o2.world, tx3, o3, [], []);
    history := AttemptFirst(env, now, o1.world, tx2, o2, history, Stamp(now, o3.events) + []);
    history := AttemptFirst(env, now, w, tx1, o1, history, Stamp(now, o2.events) + (Stamp(now, o3.events) + []));
  }

  lemma ReopenedRun(now: int, p: Plan, e1: seq<Event>, e2: seq<Event>, e3: seq<Event>)
    requires e1 == [Reclaimed(p.a, {})] && |e2| == 1 && e2[0].Created? && FillsAsPlanned(p, e3)
    requires p.amountIn == p.intent.sellAmount && p.amountOut == p.intent.buyAmount
    ensures var run := Stamp(now, e1) + (Stamp(now, e2) + (Stamp(now, e3) + []));
      && Settles(run, p.a) && !ReclaimedByOwner(run, p.a, p.intent.owner)
      && TotalWithdrawn(run, p.a) == p.intent.sellAmount && TotalReceived(run, p.a) == p.intent.buyAmount
  {
    var run := Stamp(now, e1) + (Stamp(now, e2) + (Stamp(now, e3) + []));
    assert |run| == 4 && run[0].event == e1[0] && run[1].event == e2[0] && run[2].event == e3[0] && run[3].event == e3[1];
    assert forall k :: 0 <= k < 4 ==> !OwnerReclaims(run[k].event, p.a, p.intent.owner);
    var late := [run[3]];
    assert late[1..] == [] && TotalWithdrawn(late[1..], p.a) == 0 && TotalReceived(late[1..], p.a) == 0;
    assert TotalWithdrawn(late, p.a) == p.intent.sellAmount && TotalReceived(late, p.a) == p.intent.buyAmount;
    var early := [run[0], run[1], run[2]];
    NothingFilled(early, p.a);
    TotalsAppend(early, late, p.a);
    assert run == early + late;
  }

  /** Exactly when a stored cancellation is final, over every history of transactions under a clock
      from `now` on: the order's exact side is below its amount, or the order has expired. */
  lemma CancellationFinalIff(env: Env, now: int, w: World, p: Plan)
    requires Reopenable(env, w, p) && OrdersOk(env, w.orders)
    requires w.orders[p.a].cancelled && OnlyIntent(env, p.a, p.intent)
    ensures CancelledBelow(w.orders, p.a) || now > p.intent.validTo
      <==> forall history :: ClockAdvances(now, history)
                             && !ReclaimedByOwner(RunHistory(env, w, history).1, p.a, p.intent.owner)
                             ==> !Settles(RunHistory(env, w, history).1, p.a)
  {
    if CancelledBelow(w.orders, p.a) || now > p.intent.validTo {
      forall history | ClockAdvances(now, history) && !ReclaimedByOwner(RunHistory(env, w, history).1, p.a, p.intent.owner)
        ensures !Settles(RunHistory(env, w, history).1, p.a)
      {
        CancelledOrderStaysDead(env, w, history, p.a, now);
      }
    } else {
      var history := CompleteOrderReopens(env, now, w, p);
    }
  }

  /** Exactly when a completed order gives nothing more, over every history under a clock from `now`
      on: the order has expired. Before that, one more creation doubles what it gives. */
  lemma CompletedForGoodIff(env: Env, now: int, w: World, p: Plan)
    requires Reopenable(env, w, p) && OrdersOk(env, w.orders)
    requires Complete(w.orders, p.a) && OnlyIntent(env, p.a, p.intent)
    ensures now > p.intent.validTo
      <==> forall history :: ClockAdvances(now, history) ==> TotalWithdrawn(RunHistory(env, w, history).1, p.a) == 0
  {
    if now > p.intent.validTo {
      forall history | ClockAdvances(now, history) ensures TotalWithdrawn(RunHistory(env, w, history).1, p.a) == 0 {
        ExpiredNeverSettles(env, w, history, p.a, p.intent, now);
        UnsettledGivesNothing(RunHistory(env, w, history).1, p.a);
      }
    } else {
      var history := CompleteOrderReopens(env, now, w, p);
    }
  }
}
