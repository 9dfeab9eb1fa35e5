/** The two settle handlers: pairing checks, per-order validation, pulls and payouts. */
module Settle {
  import opened Basics
  import opened Intent
  import opened OrderAccounts
  import opened Fills
  import opened KnownBuffers
  import opened SettleWire
  import opened Ledger
  import opened Worlds
  import OrderHandlers
  import StateAccounts

  // ---------------------------------------------------------------------------------------
  // Pairing
  // ---------------------------------------------------------------------------------------

  /** The counterpart exists, is ours, has the expected kind and points back at us. */
  function ValidateCounterpart(env: Env, ixs: seq<Ix>, current: nat, counterpart: nat, expected: Discriminator)
    : (r: Result<()>)
  {
    if counterpart >= |ixs| then Err(MissingCounterpartInstruction) else
    var ix := ixs[counterpart];
    if ix.programId != env.programId then Err(CounterpartIsExternal) else
    match RecoverDiscriminator(ix.data)
    case Err(_) => Err(InvalidCounterpartDiscriminator)
    case Ok((kind, rest)) =>
      match RecoverCounterpart(rest)
      case Err(_) => Err(InvalidCounterpartCounterpart)
      case Ok((theirs, _)) =>
        if kind != expected || theirs != current then Err(MismatchedCounterpartDiscriminator) else Ok(())
  }

  /** Exactly: the counterpart is there, is this program's, starts with the expected byte and links
      back. */
  lemma CounterpartExact(env: Env, ixs: seq<Ix>, current: nat, counterpart: nat)
    ensures ValidateCounterpart(env, ixs, current, counterpart, BeginSettle).Ok? <==>
      && counterpart < |ixs| && ixs[counterpart].programId == env.programId && |ixs[counterpart].data| >= 3
      && ixs[counterpart].data[0] == 0
      && ixs[counterpart].data[1] as int + 256 * (ixs[counterpart].data[2] as int) == current
    ensures ValidateCounterpart(env, ixs, current, counterpart, FinalizeSettle).Ok? <==>
      && counterpart < |ixs| && ixs[counterpart].programId == env.programId && |ixs[counterpart].data| >= 3
      && ixs[counterpart].data[0] == 1
      && ixs[counterpart].data[1] as int + 256 * (ixs[counterpart].data[2] as int) == current
  {
    if counterpart < |ixs| && |ixs[counterpart].data| >= 3 {
      var data := ixs[counterpart].data;
      assert data[1..][0] == data[1] && data[1..][1] == data[2];
    }
  }

  predicate IsSettleKind(d: Discriminator) { d.BeginSettle? || d.FinalizeSettle? }

  /** A settle instruction of this program. */
  predicate IsSettleIx(env: Env, ix: Ix)
  {
    ix.programId == env.programId && RecoverDiscriminator(ix.data).Ok?
    && IsSettleKind(RecoverDiscriminator(ix.data).value.0)
  }

  /** No settle instruction of this program strictly between the pair. */
  function ValidateNoNesting(env: Env, ixs: seq<Ix>, current: nat, finalize: nat): (r: Result<()>)
    requires finalize < |ixs|
    ensures r.Ok? <==> current < finalize && forall k :: current < k < finalize ==> !IsSettleIx(env, ixs[k])
  {
    if finalize <= current then Err(FinalizeBeforeInitialize) else ScanBetween(env, ixs, current + 1, finalize)
  }

  function ScanBetween(env: Env, ixs: seq<Ix>, i: nat, end: nat): (r: Result<()>)
    requires i <= end <= |ixs|
    ensures r.Ok? <==> forall k :: i <= k < end ==> !IsSettleIx(env, ixs[k])
    ensures r.Err? ==> r.error == BeginFinalizePairOverlap
    decreases end - i
  {
    if i == end then Ok(())
    else if IsSettleIx(env, ixs[i]) then Err(BeginFinalizePairOverlap)
    else ScanBetween(env, ixs, i + 1, end)
  }

  // ---------------------------------------------------------------------------------------
  // One order
  // ---------------------------------------------------------------------------------------

  /** Everything checked about an order before its funds move. */
  function CheckOrder(env: Env, now: int, w: World, o: SettledOrder<Meta>, push: PairedPush): (r: Result<OrderBody>)
    requires |env.buffers.known| < 255
    ensures r.Ok? ==> o.orderPda.key in w.orders && r.value == w.orders[o.orderPda.key]
    ensures r.Ok? ==> o.sellAccount.key in w.tokens
  {
    var b :- OrderHandlers.LoadOrder(env, w, o.orderPda.key);
    if b.cancelled then Err(OrderCancelled) else
    if now > b.intent.validTo then Err(OrderExpired) else
    if push.destination != BuyAccount(b.intent) then Err(PushDestinationMismatch) else
    var _ :- ValidateBuffer(env.buffers, push.source, BuyMint(b.intent), push.bump);
    if push.source == push.destination then Err(PushSourceIsDestination) else
    if o.sellAccount.key != b.intent.sell.account then Err(SellTokenAccountMismatch) else
    if o.sellAccount.key !in w.tokens then Err(SellTokenAccountInvalid) else
    if w.tokens[o.sellAccount.key].owner != b.intent.owner then Err(SellTokenOwnerMismatch) else
    if w.tokens[o.sellAccount.key].mint != b.intent.sell.mint then Err(SellMintMismatch) else
    Ok(b)
  }

  /** What an order must meet before its funds move, all of it read off the order and the ledger. */
  ghost predicate Passes(env: Env, now: int, w: World, o: SettledOrder<Meta>, push: PairedPush)
    requires |env.buffers.known| < 255
  {
    && o.orderPda.key in w.orders && o.sellAccount.key in w.tokens
    && var b := w.orders[o.orderPda.key];
       var account := w.tokens[o.sellAccount.key];
       && env.orderAddress(b.intent, b.bump) == Some(o.orderPda.key)
       && !b.cancelled && now <= b.intent.validTo
       && push.destination == BuyAccount(b.intent) && push.source != push.destination
       && ValidateBuffer(env.buffers, push.source, BuyMint(b.intent), push.bump).Ok?
       && o.sellAccount.key == b.intent.sell.account
       && account.owner == b.intent.owner && account.mint == b.intent.sell.mint
  }

  /** The checks pass exactly on that. */
  lemma CheckOrderExact(env: Env, now: int, w: World, o: SettledOrder<Meta>, push: PairedPush)
    requires |env.buffers.known| < 255
    ensures CheckOrder(env, now, w, o, push).Ok? <==> Passes(env, now, w, o, push)
  {}

  function PullOrder(env: Env, w: World, o: SettledOrder<Meta>): (r: Result<(Tokens, U64)>)
    requires o.sellAccount.key in w.tokens
  {
    var program := w.tokens[o.sellAccount.key].program;
    var mint :- ReadMint(w.mints, program, MaybeMint(env.sysvar, o.sellMint.key));
    PullAll(w.tokens, program, o.sellAccount.key, mint, env.statePda, o.destinations, o.amounts, 0)
  }

  /** Pull, and fold the settlement into the order stored as `b`. */
  function FinishOrder(env: Env, w: World, b: OrderBody, o: SettledOrder<Meta>, push: PairedPush): (r: Result<Outcome>)
    requires o.sellAccount.key in w.tokens
  {
    var (tokens, amountIn) :- PullOrder(env, w, o);
    var b' :- Fill(b, amountIn, push.amount);
    Ok(Outcome(w.(orders := w.orders[o.orderPda.key := b'], tokens := tokens),
               [Filled(o.orderPda.key, amountIn, push.amount)]))
  }

  function ProcessOrder(env: Env, now: int, w: World, o: SettledOrder<Meta>, push: PairedPush): (r: Result<Outcome>)
    requires |env.buffers.known| < 255
  {
    var b :- CheckOrder(env, now, w, o, push);
    FinishOrder(env, w, b, o, push)
  }

  /** Each order with its push, addresses strictly increasing, none of either left over. */
  function SettleOrders(env: Env, now: int, w: World, orders: seq<SettledOrder<Meta>>, pushes: seq<PairedPush>,
                        previous: Option<Address>): (r: Result<Outcome>)
    requires |env.buffers.known| < 255
    decreases |orders|
  {
    if orders == [] then (if pushes == [] then Ok(Outcome(w, [])) else Err(SettledOrderPushCountMismatch)) else
    var a := orders[0].orderPda.key;
    if previous.Some? && !Less(previous.value, a) then Err(OrdersNotStrictlyIncreasing) else
    if pushes == [] then Err(SettledOrderPushCountMismatch) else
    var first :- ProcessOrder(env, now, w, orders[0], pushes[0]);
    var rest :- SettleOrders(env, now, first.world, orders[1..], pushes[1..], Some(a));
    Ok(Outcome(rest.world, first.events + rest.events))
  }

  // ---------------------------------------------------------------------------------------
  // The handlers
  // ---------------------------------------------------------------------------------------

  function RequireSolver(env: Env, w: World, statePda: Address, solver: Meta): (r: Result<()>)
  {
    if statePda != env.statePda then Err(StateAccountMismatch) else
    if !StateAccounts.Attachable(w.state) then Err(InvalidAccountData) else
    if !solver.signer || !StateAccounts.IsSolver(w.state, solver.key) then Err(UnauthorizedSolver) else Ok(())
  }

  /** The pairing checks of BeginSettle, yielding the pushes it will settle against. */
  function PairedPushes(env: Env, ixs: seq<Ix>, i: nat, finalizeIx: nat): (r: Result<seq<PairedPush>>)
  {
    var _ :- ValidateCounterpart(env, ixs, i, finalizeIx, FinalizeSettle);
    var _ :- ValidateNoNesting(env, ixs, i, finalizeIx);
    IntrospectPushes(ixs[finalizeIx].data, Keys(ixs[finalizeIx].metas))
  }

  function ProcessBegin(env: Env, now: int, cpi: bool, ixs: seq<Ix>, i: nat, ix: Ix, w: World): (r: Result<Outcome>)
    requires |env.buffers.known| < 255
  {
    if cpi then Err(CalledViaCpi) else
    var input :- ParseBegin(ix.data, ix.metas);
    var _ :- RequireSolver(env, w, input.statePda.key, input.solver);
    if input.sysvar.key != env.sysvar then Err(UnsupportedSysvar) else
    var pushes :- PairedPushes(env, ixs, i, input.finalizeIx);
    var settled :- SettleOrders(env, now, w, SplitOrders(input.orders), pushes, None);
    Ok(Outcome(settled.world, [Begun(input.solver.key, Signers(ix.metas))] + settled.events))
  }

  function PayContextOf(env: Env, w: World): (ctx: PayContext)
  {
    PayContext(env.nativeBuffer, env.statePda, env.sysvar, w.mints)
  }

  function ProcessFinalize(env: Env, cpi: bool, ixs: seq<Ix>, i: nat, ix: Ix, w: World): (r: Result<Outcome>)
  {
    if cpi then Err(CalledViaCpi) else
    var input :- ParseFinalize(ix.data, ix.metas);
    if input.sysvar.key != env.sysvar then Err(UnsupportedSysvar) else
    var _ :- ValidateCounterpart(env, ixs, i, input.beginIx, BeginSettle);
    if input.statePda.key != env.statePda then Err(StateAccountMismatch) else
    var f :- PushFunds(PayContextOf(env, w), Funds(w.tokens, w.lamports), input.pushes);
    Ok(Outcome(w.(tokens := f.tokens, lamports := f.lamports), []))
  }

  /** What a BeginSettle at `i` must meet before it touches its orders. */
  ghost predicate BeginPasses(env: Env, ixs: seq<Ix>, i: nat, ix: Ix, w: World)
  {
    && ParseBegin(ix.data, ix.metas).Ok?
    && var input := ParseBegin(ix.data, ix.metas).value;
       && input.statePda.key == env.statePda && input.sysvar.key == env.sysvar
       && StateAccounts.Attachable(w.state) && input.solver.signer && StateAccounts.IsSolver(w.state, input.solver.key)
       && ValidateCounterpart(env, ixs, i, input.finalizeIx, FinalizeSettle).Ok?
       && i < input.finalizeIx && (forall k :: i < k < input.finalizeIx ==> !IsSettleIx(env, ixs[k]))
       && IntrospectPushes(ixs[input.finalizeIx].data, Keys(ixs[input.finalizeIx].metas)).Ok?
  }

  /** A BeginSettle succeeds exactly at the top level, when it meets that and its orders settle against
      the pushes it sees; and then it does what settling them does. */
  lemma BeginExact(env: Env, now: int, cpi: bool, ixs: seq<Ix>, i: nat, ix: Ix, w: World)
    requires |env.buffers.known| < 255
    ensures ProcessBegin(env, now, cpi, ixs, i, ix, w).Ok? ==> !cpi && BeginPasses(env, ixs, i, ix, w)
    ensures !cpi && BeginPasses(env, ixs, i, ix, w) ==>
      var input := ParseBegin(ix.data, ix.metas).value;
      var pushes := IntrospectPushes(ixs[input.finalizeIx].data, Keys(ixs[input.finalizeIx].metas)).value;
      match SettleOrders(env, now, w, SplitOrders(input.orders), pushes, None)
      case Ok(settled) =>
        ProcessBegin(env, now, cpi, ixs, i, ix, w)
        == Ok(Outcome(settled.world, [Begun(input.solver.key, Signers(ix.metas))] + settled.events))
      case Err(e) => ProcessBegin(env, now, cpi, ixs, i, ix, w) == Err(e)
  {}

  /** A FinalizeSettle succeeds exactly at the top level, when it parses, names the right accounts, a
      begin links back to it and its payout succeeds; and then it moves just those funds. */
  lemma FinalizeExact(env: Env, cpi: bool, ixs: seq<Ix>, i: nat, ix: Ix, w: World)
    ensures var r := ProcessFinalize(env, cpi, ixs, i, ix, w);
      r.Ok? <==>
        && !cpi && ParseFinalize(ix.data, ix.metas).Ok?
        && var input := ParseFinalize(ix.data, ix.metas).value;
           && input.sysvar.key == env.sysvar && input.statePda.key == env.statePda
           && ValidateCounterpart(env, ixs, i, input.beginIx, BeginSettle).Ok?
           && PushFunds(PayContext(env.nativeBuffer, env.statePda, env.sysvar, w.mints), Funds(w.tokens, w.lamports),
                        input.pushes).Ok?
    ensures var r := ProcessFinalize(env, cpi, ixs, i, ix, w);
      r.Ok? ==>
        var f := PushFunds(PayContext(env.nativeBuffer, env.statePda, env.sysvar, w.mints), Funds(w.tokens, w.lamports),
                           ParseFinalize(ix.data, ix.metas).value.pushes).value;
        r == Ok(Outcome(w.(tokens := f.tokens, lamports := f.lamports), []))
  {}

  // ---------------------------------------------------------------------------------------
  // What a successful batch means
  // ---------------------------------------------------------------------------------------

  /** Order `o`, stored as `b`, settled against `push` and ending up as `b'`: the order was live,
      the push pays its buy account from an accepted source distinct from it, the price is at
      least the limit, and both totals grew by exactly what was pulled and what is pushed. */
  ghost predicate SettledAs(env: Env, now: int, b: OrderBody, o: SettledOrder<Meta>, push: PairedPush, b': OrderBody)
  {
    && !b.cancelled && now <= b.intent.validTo
    && push.destination == BuyAccount(b.intent) && push.source != push.destination
    && |env.buffers.known| < 255
    && ValidateBuffer(env.buffers, push.source, BuyMint(b.intent), push.bump).Ok?
    && o.sellAccount.key == b.intent.sell.account
    && Sum(o.amounts) <= U64_MAX && Acceptable(b.intent, b.withdrawn, b.received, Sum(o.amounts), push.amount)
    && b' == b.(withdrawn := b.withdrawn + Sum(o.amounts), received := b.received + push.amount)
    && Fill(b, Sum(o.amounts), push.amount) == Ok(b')
  }

  /** The pulls of one order moved each amount from its sell account to its own destination, and
      nothing else. */
  ghost predicate PulledExactly(t: Tokens, o: SettledOrder<Meta>, t': Tokens)
  {
    && |o.destinations| == |o.amounts| && SameAccounts(t, t')
    && forall a :: a in t ==>
         t'[a].amount + (if o.sellAccount.key == a then Sum(o.amounts) else 0)
         == t[a].amount + PulledInto(o.destinations, o.amounts, a)
  }

  /** What is pulled is the sum of the listed amounts, into the listed destinations. */
  lemma PulledAmount(env: Env, w: World, o: SettledOrder<Meta>)
    requires o.sellAccount.key in w.tokens && |o.destinations| == |o.amounts|
    requires PullOrder(env, w, o).Ok?
    ensures PullOrder(env, w, o).value.1 == Sum(o.amounts)
    ensures PulledExactly(w.tokens, o, PullOrder(env, w, o).value.0)
  {
    PullEffect(w.tokens, w.tokens[o.sellAccount.key].program, o.sellAccount.key,
               MaybeMint(env.sysvar, o.sellMint.key), env.statePda, o.destinations, o.amounts, 0);
  }

  lemma ProcessOrderEffect(env: Env, now: int, w: World, o: SettledOrder<Meta>, push: PairedPush)
    requires |env.buffers.known| < 255 && |o.destinations| == |o.amounts|
    requires ProcessOrder(env, now, w, o, push).Ok?
    ensures var r := ProcessOrder(env, now, w, o, push).value;
      var a := o.orderPda.key;
      && a in w.orders && a in r.world.orders
      && SettledAs(env, now, w.orders[a], o, push, r.world.orders[a])
      && r.world == w.(orders := w.orders[a := r.world.orders[a]], tokens := r.world.tokens)
      && PulledExactly(w.tokens, o, r.world.tokens)
      && Sum(o.amounts) <= U64_MAX
      && r.events == [Filled(a, Sum(o.amounts), push.amount)]
  {
    PulledAmount(env, w, o);
  }

  ghost predicate WellGrouped(orders: seq<SettledOrder<Meta>>)
  {
    forall k :: 0 <= k < |orders| ==> |orders[k].destinations| == |orders[k].amounts|
  }

  /** A successful batch pairs its orders and pushes one to one, with strictly increasing
      addresses above `previous`. */
  lemma {:induction false} SettledPairing(env: Env, now: int, w: World, orders: seq<SettledOrder<Meta>>,
                                          pushes: seq<PairedPush>, previous: Option<Address>)
    requires |env.buffers.known| < 255
    requires SettleOrders(env, now, w, orders, pushes, previous).Ok?
    ensures |orders| == |pushes|
    ensures forall k :: 0 <= k < |orders| && previous.Some? ==> Less(previous.value, orders[k].orderPda.key)
    ensures forall j, k :: 0 <= j < k < |orders| ==> Less(orders[j].orderPda.key, orders[k].orderPda.key)
    decreases |orders|
  {
    if orders != [] {
      var a := orders[0].orderPda.key;
      var first := ProcessOrder(env, now, w, orders[0], pushes[0]).value;
      SettledPairing(env, now, first.world, orders[1..], pushes[1..], Some(a));
      forall k | 1 <= k < |orders|
        ensures Less(a, orders[k].orderPda.key)
        ensures previous.Some? ==> Less(previous.value, orders[k].orderPda.key)
      {
        assert orders[k] == orders[1..][k - 1];
        if previous.Some? {
          LessTransitive(previous.value, a, orders[k].orderPda.key);
        }
      }
      forall j, k | 1 <= j < k < |orders| ensures Less(orders[j].orderPda.key, orders[k].orderPda.key) {
        assert orders[j] == orders[1..][j - 1] && orders[k] == orders[1..][k - 1];
      }
    }
  }

  /** A batch changes only existing orders and token balances. */
  lemma {:induction false} BatchShape(env: Env, now: int, w: World, orders: seq<SettledOrder<Meta>>,
                                      pushes: seq<PairedPush>, previous: Option<Address>)
    requires |env.buffers.known| < 255
    requires SettleOrders(env, now, w, orders, pushes, previous).Ok?
    ensures var w' := SettleOrders(env, now, w, orders, pushes, previous).value.world;
      w'.orders.Keys == w.orders.Keys && w' == w.(orders := w'.orders, tokens := w'.tokens)
    decreases |orders|
  {
    if orders != [] {
      var first := ProcessOrder(env, now, w, orders[0], pushes[0]).value;
      BatchShape(env, now, first.world, orders[1..], pushes[1..], Some(orders[0].orderPda.key));
    }
  }

  predicate Names(orders: seq<SettledOrder<Meta>>, a: Address)
  {
    exists k :: 0 <= k < |orders| && orders[k].orderPda.key == a
  }

  /** An order the batch does not name keeps its body. */
  lemma {:induction false} BatchFrame(env: Env, now: int, w: World, orders: seq<SettledOrder<Meta>>,
                                      pushes: seq<PairedPush>, previous: Option<Address>, a: Address)
    requires |env.buffers.known| < 255
    requires SettleOrders(env, now, w, orders, pushes, previous).Ok?
    requires a in w.orders && !Names(orders, a)
    ensures var w' := SettleOrders(env, now, w, orders, pushes, previous).value.world;
      a in w'.orders && w'.orders[a] == w.orders[a]
    decreases |orders|
  {
    if orders != [] {
      var first := ProcessOrder(env, now, w, orders[0], pushes[0]).value;
      assert orders[0].orderPda.key != a;
      assert !Names(orders[1..], a) by {
        assert forall j :: 0 <= j < |orders[1..]| ==> orders[1..][j] == orders[j + 1];
      }
      BatchFrame(env, now, first.world, orders[1..], pushes[1..], Some(orders[0].orderPda.key), a);
    }
  }

  /** The first order of a batch settles against the first push, and the rest of the batch leaves it
      as it is. */
  lemma FirstEffect(env: Env, now: int, w: World, orders: seq<SettledOrder<Meta>>, pushes: seq<PairedPush>,
                    previous: Option<Address>)
    requires |env.buffers.known| < 255 && WellGrouped(orders) && orders != []
    requires SettleOrders(env, now, w, orders, pushes, previous).Ok?
    ensures pushes != []
    ensures var w' := SettleOrders(env, now, w, orders, pushes, previous).value.world;
      var a := orders[0].orderPda.key;
      a in w.orders && a in w'.orders && SettledAs(env, now, w.orders[a], orders[0], pushes[0], w'.orders[a])
  {
    var a := orders[0].orderPda.key;
    SettledPairing(env, now, w, orders, pushes, previous);
    ProcessOrderEffect(env, now, w, orders[0], pushes[0]);
    assert !Names(orders[1..], a) by {
      forall j | 0 <= j < |orders[1..]| ensures orders[1..][j].orderPda.key != a {
        LessAsymmetric(a, orders[j + 1].orderPda.key);
      }
    }
    BatchFrame(env, now, ProcessOrder(env, now, w, orders[0], pushes[0]).value.world, orders[1..], pushes[1..], Some(a), a);
  }

  /** A later order is stored the same before and after the first one settles. */
  lemma LaterUntouched(env: Env, now: int, w: World, orders: seq<SettledOrder<Meta>>, pushes: seq<PairedPush>,
                       previous: Option<Address>, k: nat)
    requires |env.buffers.known| < 255 && WellGrouped(orders) && 0 < k < |orders|
    requires SettleOrders(env, now, w, orders, pushes, previous).Ok?
    ensures pushes != [] && ProcessOrder(env, now, w, orders[0], pushes[0]).Ok?
    ensures var w1, a := ProcessOrder(env, now, w, orders[0], pushes[0]).value.world, orders[k].orderPda.key;
      a in w1.orders ==> a in w.orders && w1.orders[a] == w.orders[a]
  {
    SettledPairing(env, now, w, orders, pushes, previous);
    ProcessOrderEffect(env, now, w, orders[0], pushes[0]);
    LessAsymmetric(orders[0].orderPda.key, orders[k].orderPda.key);
  }

  /** Order `k` of a successful batch settles exactly once, against push `k`, judged on the order
      as it was stored before the batch. */
  lemma {:induction false} BatchEffect(env: Env, now: int, w: World, orders: seq<SettledOrder<Meta>>,
                                       pushes: seq<PairedPush>, previous: Option<Address>, k: nat)
    requires |env.buffers.known| < 255 && WellGrouped(orders)
    requires SettleOrders(env, now, w, orders, pushes, previous).Ok?
    requires k < |orders|
    ensures |orders| == |pushes|
    ensures var w' := SettleOrders(env, now, w, orders, pushes, previous).value.world;
      var a := orders[k].orderPda.key;
      a in w.orders && a in w'.orders && SettledAs(env, now, w.orders[a], orders[k], pushes[k], w'.orders[a])
    decreases |orders|
  {
    SettledPairing(env, now, w, orders, pushes, previous);
    if k == 0 {
      FirstEffect(env, now, w, orders, pushes, previous);
    } else {
      LaterUntouched(env, now, w, orders, pushes, previous, k);
      var w1 := ProcessOrder(env, now, w, orders[0], pushes[0]).value.world;
      assert orders[1..][k - 1] == orders[k] && pushes[1..][k - 1] == pushes[k];
      BatchEffect(env, now, w1, orders[1..], pushes[1..], Some(orders[0].orderPda.key), k - 1);
    }
  }
}
