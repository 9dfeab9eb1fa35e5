/** What the program's own instructions keep true of the two ledgers: lamports and every mint's
    books are conserved across whole transactions, and the state account stays rent-exempt over
    every history. */
module Treasury {
  import opened Basics
  import Intent
  import OrderAccounts
  import opened SettleWire
  import opened Ledger
  import opened Worlds
  import opened Settle
  import opened Transactions
  import opened StateAccounts
  import opened Histories
  import opened Custody
  import OrderHandlers
  import AdminHandlers
  import BufferHandlers

  // ---------------------------------------------------------------------------------------
  // Conservation
  // ---------------------------------------------------------------------------------------

  /** Each mint's supply moved by exactly as much as the balances held in it. */
  ghost predicate BooksBalance(w: World, w': World)
  {
    && w'.mints.Keys == w.mints.Keys
    && forall m :: m in w.mints ==>
         w'.mints[m].supply + Total(Balances(w.tokens, m)) == w.mints[m].supply + Total(Balances(w'.tokens, m))
  }

  ghost predicate Conserves(w: World, w': World)
  {
    Total(w'.lamports) == Total(w.lamports) && BooksBalance(w, w')
  }

  lemma {:induction false} PullConserves(t: Tokens, program: TokenProgram, from: Address, via: Option<Address>,
                                         authority: Address, destinations: seq<Meta>, amounts: seq<U64>, sum: U64,
                                         mint: Address)
    requires PullAll(t, program, from, via, authority, destinations, amounts, sum).Ok?
    ensures var t' := PullAll(t, program, from, via, authority, destinations, amounts, sum).value.0;
      Total(Balances(t', mint)) == Total(Balances(t, mint))
    decreases |amounts|
  {
    if destinations != [] && amounts != [] {
      TransferConserves(t, program, from, destinations[0].key, via, authority, amounts[0], mint);
      var t1 := Transfer(t, program, from, destinations[0].key, via, authority, amounts[0]).value;
      PullConserves(t1, program, from, via, authority, destinations[1..], amounts[1..], sum + amounts[0], mint);
    }
  }

  lemma PullOrderConserves(env: Env, w: World, o: SettledOrder<Meta>, mint: Address)
    requires o.sellAccount.key in w.tokens && PullOrder(env, w, o).Ok?
    ensures Total(Balances(PullOrder(env, w, o).value.0, mint)) == Total(Balances(w.tokens, mint))
  {
    PullConserves(w.tokens, w.tokens[o.sellAccount.key].program, o.sellAccount.key,
                  MaybeMint(env.sysvar, o.sellMint.key), env.statePda, o.destinations, o.amounts, 0, mint);
  }

  lemma {:induction false} BatchConserves(env: Env, now: int, w: World, orders: seq<SettledOrder<Meta>>,
                                          pushes: seq<PairedPush>, previous: Option<Address>, mint: Address)
    requires |env.buffers.known| < 255
    requires SettleOrders(env, now, w, orders, pushes, previous).Ok?
    ensures var w' := SettleOrders(env, now, w, orders, pushes, previous).value.world;
      Total(Balances(w'.tokens, mint)) == Total(Balances(w.tokens, mint))
    decreases |orders|
  {
    if orders != [] {
      var first := ProcessOrder(env, now, w, orders[0], pushes[0]).value;
      PullOrderConserves(env, w, orders[0], mint);
      BatchConserves(env, now, first.world, orders[1..], pushes[1..], Some(orders[0].orderPda.key), mint);
    }
  }

  lemma BeginConserves(env: Env, now: int, cpi: bool, ixs: seq<Ix>, i: nat, ix: Ix, w: World)
    requires |env.buffers.known| < 255 && ProcessBegin(env, now, cpi, ixs, i, ix, w).Ok?
    ensures var w' := ProcessBegin(env, now, cpi, ixs, i, ix, w).value.world;
      Conserves(w, w') && w'.state == w.state && w'.lamports == w.lamports
  {
    var input := ParseBegin(ix.data, ix.metas).value;
    var orders, pushes := SplitOrders(input.orders), PairedPushes(env, ixs, i, input.finalizeIx).value;
    BatchShape(env, now, w, orders, pushes, None);
    forall m | m in w.mints
      ensures Total(Balances(SettleOrders(env, now, w, orders, pushes, None).value.world.tokens, m))
           == Total(Balances(w.tokens, m))
    {
      BatchConserves(env, now, w, orders, pushes, None, m);
    }
  }

  lemma FinalizeConserves(env: Env, cpi: bool, ixs: seq<Ix>, i: nat, ix: Ix, w: World)
    requires ProcessFinalize(env, cpi, ixs, i, ix, w).Ok?
    ensures Conserves(w, ProcessFinalize(env, cpi, ixs, i, ix, w).value.world)
  {
    PushFundsEffect(PayContextOf(env, w), Funds(w.tokens, w.lamports), ParseFinalize(ix.data, ix.metas).value.pushes);
  }

  lemma OrdersConserve(env: Env, w: World, metas: seq<Meta>, body: seq<Byte>)
    ensures var r := OrderHandlers.ProcessCreateOrder(env, w, metas, body);
      r.Ok? ==> Conserves(w, r.value.world)
    ensures var r := OrderHandlers.ProcessCreateSettlementOwnedOrder(env, w, metas, body);
      r.Ok? ==> Conserves(w, r.value.world)
  {
    if OrderHandlers.ProcessCreateOrder(env, w, metas, body).Ok? {
      OrderHandlers.NewOrderConserves(env, w, metas[2].key, body, metas[0].key, metas[1], false, Signers(metas));
    }
    if OrderHandlers.ProcessCreateSettlementOwnedOrder(env, w, metas, body).Ok? {
      OrderHandlers.NewOrderConserves(env, w, metas[3].key, body, env.statePda, metas[1], false, Signers(metas));
    }
  }

  lemma CancelBalances(env: Env, w: World, metas: seq<Meta>, body: seq<Byte>)
    requires OrderHandlers.ProcessCancelOrder(env, w, metas, body).Ok?
    ensures Conserves(w, OrderHandlers.ProcessCancelOrder(env, w, metas, body).value.world)
  {
    OrderHandlers.CancelConserves(env, w, metas, body);
  }

  /** The one instruction that destroys lamports: reclaiming a funded order onto itself. */
  ghost predicate ReclaimsOntoItself(ix: Ix, w: World)
  {
    && ix.data == [5] && |ix.metas| >= 2
    && ix.metas[0].key == ix.metas[1].key && Get(w.lamports, ix.metas[0].key) > 0
  }

  lemma ReclaimConservesIff(env: Env, now: int, w: World, ix: Ix)
    requires OrderHandlers.ProcessReclaimOrder(env, now, w, ix.metas, []).Ok? && ix.data == [5]
    ensures Conserves(w, OrderHandlers.ProcessReclaimOrder(env, now, w, ix.metas, []).value.world)
      <==> !ReclaimsOntoItself(ix, w)
  {
    OrderHandlers.CloseConservesIff(w.lamports, ix.metas[0].key, ix.metas[1].key);
  }

  lemma AdminConserves(env: Env, w: World, metas: seq<Meta>, body: seq<Byte>)
    ensures var r := AdminHandlers.ProcessAddSolver(env, w, metas, body); r.Ok? ==> Conserves(w, r.value.world)
    ensures var r := AdminHandlers.ProcessRemoveSolver(env, w, metas, body); r.Ok? ==> Conserves(w, r.value.world)
    ensures var r := AdminHandlers.ProcessWithdrawNativeSol(env, w, metas, body); r.Ok? ==> Conserves(w, r.value.world)
  {
    if AdminHandlers.ProcessAddSolver(env, w, metas, body).Ok? {
      AdminHandlers.AddSolverKeepsRent(env, w, metas, body);
    }
    if AdminHandlers.ProcessRemoveSolver(env, w, metas, body).Ok? {
      AdminHandlers.RemoveSolverKeepsRent(env, w, metas, body);
    }
    if AdminHandlers.ProcessWithdrawNativeSol(env, w, metas, body).Ok? {
      AdminHandlers.WithdrawalKeepsMinimum(env, w, metas, body);
    }
  }

  lemma OthersConserve(env: Env, now: int, cpi: bool, ixs: seq<Ix>, i: nat, ix: Ix, w: World)
    requires |env.buffers.known| < 255 && Dispatch(env, now, cpi, ixs, i, ix, w).Ok?
    requires !RecoverDiscriminator(ix.data).value.0.ReclaimOrder?
    ensures Conserves(w, Dispatch(env, now, cpi, ixs, i, ix, w).value.world)
  {
    var (kind, body) := RecoverDiscriminator(ix.data).value;
    match kind
    case BeginSettle => BeginConserves(env, now, cpi, ixs, i, ix, w);
    case FinalizeSettle => FinalizeConserves(env, cpi, ixs, i, ix, w);
    case CreateOrder => OrdersConserve(env, w, ix.metas, body);
    case CreateSettlementOwnedOrder => OrdersConserve(env, w, ix.metas, body);
    case CancelOrder => CancelBalances(env, w, ix.metas, body);
    case ReclaimBuffer => BufferHandlers.ReclaimBufferEffect(env, w, ix.metas, body);
    case AddSolver => AdminConserves(env, w, ix.metas, body);
    case RemoveSolver => AdminConserves(env, w, ix.metas, body);
    case WithdrawNativeSol => AdminConserves(env, w, ix.metas, body);
    case _ =>
  }

  /** Every successful instruction conserves the lamports and balances every mint's books, with
      exactly one exception. */
  lemma DispatchConservesIff(env: Env, now: int, cpi: bool, ixs: seq<Ix>, i: nat, ix: Ix, w: World)
    requires |env.buffers.known| < 255 && Dispatch(env, now, cpi, ixs, i, ix, w).Ok?
    ensures Conserves(w, Dispatch(env, now, cpi, ixs, i, ix, w).value.world) <==> !ReclaimsOntoItself(ix, w)
  {
    var (kind, body) := RecoverDiscriminator(ix.data).value;
    if kind.ReclaimOrder? {
      assert ix.data == [5] + body;
      ReclaimConservesIff(env, now, w, ix);
    } else {
      OthersConserve(env, now, cpi, ixs, i, ix, w);
    }
  }

  /** No instruction of foreign code, and no order reclaimed onto itself. */
  predicate OwnCodeOnly(env: Env, tx: Tx)
  {
    forall k :: 0 <= k < |tx| ==>
      && !IsOpaque(env, tx[k].ix)
      && !(tx[k].ix.data == [5] && |tx[k].ix.metas| >= 2 && tx[k].ix.metas[0].key == tx[k].ix.metas[1].key)
  }

  lemma StepConserves(env: Env, now: int, tx: Tx, ws: seq<World>, k: nat)
    requires Committed(env, now, tx, ws) && OwnCodeOnly(env, tx) && k < |tx|
    ensures Conserves(ws[k], ws[k + 1])
  {
    assert StepAt(env, now, tx, ws, k);
    DispatchConservesIff(env, now, false, Ixs(tx), k, tx[k].ix, ws[k]);
  }

  lemma ConservesCompose(w0: World, w1: World, w2: World)
    requires Conserves(w0, w1) && Conserves(w1, w2)
    ensures Conserves(w0, w2)
  {}

  /** A committed transaction of this program's instructions conserves lamports and books, from
      its first world to every later one. */
  lemma {:induction false} TransactionConserves(env: Env, now: int, tx: Tx, ws: seq<World>, n: nat)
    requires Committed(env, now, tx, ws) && OwnCodeOnly(env, tx) && n <= |tx|
    ensures Conserves(ws[0], ws[n])
    decreases n
  {
    if n > 0 {
      TransactionConserves(env, now, tx, ws, n - 1);
      StepConserves(env, now, tx, ws, n - 1);
      ConservesCompose(ws[0], ws[n - 1], ws[n]);
    }
  }

  // ---------------------------------------------------------------------------------------
  // Rent of the state account
  // ---------------------------------------------------------------------------------------

  /** The state account or the native buffer, at an address no order or token buffer derives. */
  ghost predicate Reserved(env: Env, x: Address)
  {
    && (x == env.statePda || x == env.nativeBuffer)
    && (forall intent, bump :: env.orderAddress(intent, bump) != Some(x))
    && (forall mint, bump :: env.buffers.derive(mint, bump) != Some(x))
  }

  /** The two accounts are distinct and nothing else shares their addresses. */
  ghost predicate Apart(env: Env)
  {
    env.statePda != env.nativeBuffer && Reserved(env, env.statePda) && Reserved(env, env.nativeBuffer)
  }

  /** The state account kept its length and `x` lost no lamports. */
  ghost predicate NotDrained(w: World, w': World, x: Address)
  {
    |w'.state| == |w.state| && Get(w'.lamports, x) >= Get(w.lamports, x)
  }

  lemma {:induction false} NeverDebited(ctx: PayContext, pushes: seq<Push<Meta>>, a: Address)
    requires a != ctx.nativeBuffer
    ensures Debited(ctx, pushes, true, a) == 0
    decreases |pushes|
  {
    if pushes != [] {
      NeverDebited(ctx, pushes[1..], a);
    }
  }

  lemma FinalizeSparesState(env: Env, cpi: bool, ixs: seq<Ix>, i: nat, ix: Ix, w: World)
    requires Apart(env) && ProcessFinalize(env, cpi, ixs, i, ix, w).Ok?
    ensures NotDrained(w, ProcessFinalize(env, cpi, ixs, i, ix, w).value.world, env.statePda)
  {
    var ctx, pushes := PayContextOf(env, w), ParseFinalize(ix.data, ix.metas).value.pushes;
    PushFundsEffect(ctx, Funds(w.tokens, w.lamports), pushes);
    NeverDebited(ctx, pushes, env.statePda);
  }

  /** Only a payer that is not program-owned is charged for a new order. */
  lemma NewOrderSpares(env: Env, w: World, pda: Address, intentBytes: seq<Byte>, expectedOwner: Address,
                       createdBy: Meta, cancelled: bool, signers: set<Address>, x: Address)
    requires Reserved(env, x) && |intentBytes| == Intent.INTENT_SIZE
    ensures var r := OrderHandlers.NewOrder(env, w, pda, intentBytes, expectedOwner, createdBy, cancelled, signers);
      r.Ok? ==> NotDrained(w, r.value.world, x)
  {
    var r := OrderHandlers.NewOrder(env, w, pda, intentBytes, expectedOwner, createdBy, cancelled, signers);
    if r.Ok? {
      OrderHandlers.TopUpEffect(env, w, createdBy, pda, env.rent(OrderAccounts.ORDER_SIZE));
    }
  }

  lemma OrderHandlersSpare(env: Env, now: int, w: World, metas: seq<Meta>, body: seq<Byte>, x: Address)
    requires Reserved(env, x)
    ensures var r := OrderHandlers.ProcessCreateOrder(env, w, metas, body);
      r.Ok? ==> NotDrained(w, r.value.world, x)
    ensures var r := OrderHandlers.ProcessCreateSettlementOwnedOrder(env, w, metas, body);
      r.Ok? ==> NotDrained(w, r.value.world, x)
    ensures var r := OrderHandlers.ProcessCancelOrder(env, w, metas, body);
      r.Ok? ==> NotDrained(w, r.value.world, x)
    ensures var r := OrderHandlers.ProcessReclaimOrder(env, now, w, metas, body);
      r.Ok? ==> NotDrained(w, r.value.world, x)
  {
    if OrderHandlers.ProcessCreateOrder(env, w, metas, body).Ok? {
      NewOrderSpares(env, w, metas[2].key, body, metas[0].key, metas[1], false, Signers(metas), x);
    }
    if OrderHandlers.ProcessCreateSettlementOwnedOrder(env, w, metas, body).Ok? {
      NewOrderSpares(env, w, metas[3].key, body, env.statePda, metas[1], false, Signers(metas), x);
    }
    if OrderHandlers.ProcessCancelOrder(env, w, metas, body).Ok? && !ProgramOwned(env, w, metas[2].key) {
      var owner := if body[0..32] == env.statePda then env.statePda else metas[0].key;
      NewOrderSpares(env, w, metas[2].key, body, owner, metas[1], true, Signers(metas), x);
    }
  }

  lemma {:induction false} ReclaimEntriesSpare(env: Env, w: World, recipient: Address,
                                               entries: seq<BufferHandlers.Entry>, any: bool, x: Address)
    requires Reserved(env, x) && BufferHandlers.ReclaimEntries(env, w, recipient, entries, any).Ok?
    ensures NotDrained(w, BufferHandlers.ReclaimEntries(env, w, recipient, entries, any).value.0, x)
    decreases |entries|
  {
    if entries != [] {
      var e := entries[0];
      if w.tokens[e.buffer].amount > e.limit {
        ReclaimEntriesSpare(env, w, recipient, entries[1..], any, x);
      } else {
        var found := FindBuffer(env, e.mint).value;
        assert env.buffers.derive(e.mint, found.1) == Some(e.buffer);
        var w1 := BufferHandlers.BurnAndClose(env, w, e, recipient).value;
        assert NotDrained(w, w1, x);
        ReclaimEntriesSpare(env, w1, recipient, entries[1..], true, x);
      }
    }
  }

  lemma WithdrawalSparesState(env: Env, w: World, metas: seq<Meta>, body: seq<Byte>)
    requires Apart(env) && AdminHandlers.ProcessWithdrawNativeSol(env, w, metas, body).Ok?
    ensures NotDrained(w, AdminHandlers.ProcessWithdrawNativeSol(env, w, metas, body).value.world, env.statePda)
  {}

  /** Every instruction leaves a rent-exempt state account rent-exempt, at its new length. */
  lemma DispatchKeepsRent(env: Env, now: int, cpi: bool, ixs: seq<Ix>, i: nat, ix: Ix, w: World)
    requires |env.buffers.known| < 255 && Apart(env) && AdminHandlers.RentExempt(env, w)
    requires Dispatch(env, now, cpi, ixs, i, ix, w).Ok?
    ensures AdminHandlers.RentExempt(env, Dispatch(env, now, cpi, ixs, i, ix, w).value.world)
  {
    var (kind, body) := RecoverDiscriminator(ix.data).value;
    match kind
    case BeginSettle => BeginConserves(env, now, cpi, ixs, i, ix, w);
    case FinalizeSettle => FinalizeSparesState(env, cpi, ixs, i, ix, w);
    case CreateOrder => OrderHandlersSpare(env, now, w, ix.metas, body, env.statePda);
    case CreateSettlementOwnedOrder => OrderHandlersSpare(env, now, w, ix.metas, body, env.statePda);
    case CancelOrder => OrderHandlersSpare(env, now, w, ix.metas, body, env.statePda);
    case ReclaimOrder => OrderHandlersSpare(env, now, w, ix.metas, body, env.statePda);
    case ReclaimBuffer =>
      ReclaimEntriesSpare(env, w, ix.metas[2].key, BufferHandlers.ParseEntries(ix.metas, body).value, false, env.statePda);
    case AddSolver => AdminHandlers.AddSolverKeepsRent(env, w, ix.metas, body);
    case RemoveSolver => AdminHandlers.RemoveSolverKeepsRent(env, w, ix.metas, body);
    case WithdrawNativeSol => WithdrawalSparesState(env, w, ix.metas, body);
    case _ =>
  }

  lemma {:induction false} ActsKeepRent(env: Env, now: int, ixs: seq<Ix>, i: nat, acts: seq<Act>, w: World)
    requires |env.buffers.known| < 255 && Apart(env) && AdminHandlers.RentExempt(env, w)
    requires DoActs(env, now, ixs, i, acts, w).Ok?
    ensures AdminHandlers.RentExempt(env, DoActs(env, now, ixs, i, acts, w).value.world)
    decreases |acts|
  {
    if acts != [] {
      var act := acts[0];
      if act.Call? && act.ix.programId == env.programId {
        DispatchKeepsRent(env, now, true, ixs, i, act.ix, w);
      }
      ActsKeepRent(env, now, ixs, i, acts[1..], DoAct(env, now, ixs, i, act, w).value.world);
    }
  }

  lemma ExecKeepsRent(env: Env, now: int, ixs: seq<Ix>, i: nat, op: Op, w: World)
    requires |env.buffers.known| < 255 && Apart(env) && AdminHandlers.RentExempt(env, w)
    requires Exec(env, now, ixs, i, op, w).Ok?
    ensures AdminHandlers.RentExempt(env, Exec(env, now, ixs, i, op, w).value.world)
  {
    if IsOpaque(env, op.ix) {
      ActsKeepRent(env, now, ixs, i, op.acts, w);
    } else {
      DispatchKeepsRent(env, now, false, ixs, i, op.ix, w);
    }
  }

  lemma StepKeepsRent(env: Env, now: int, tx: Tx, ws: seq<World>, k: nat)
    requires Committed(env, now, tx, ws) && Apart(env) && k < |tx| && AdminHandlers.RentExempt(env, ws[k])
    ensures AdminHandlers.RentExempt(env, ws[k + 1])
  {
    assert StepAt(env, now, tx, ws, k);
    ExecKeepsRent(env, now, Ixs(tx), k, tx[k], ws[k]);
  }

  lemma {:induction false} TransactionKeepsRent(env: Env, now: int, tx: Tx, ws: seq<World>, n: nat)
    requires Committed(env, now, tx, ws) && Apart(env) && n <= |tx| && AdminHandlers.RentExempt(env, ws[0])
    ensures AdminHandlers.RentExempt(env, ws[n])
    decreases n
  {
    if n > 0 {
      TransactionKeepsRent(env, now, tx, ws, n - 1);
      StepKeepsRent(env, now, tx, ws, n - 1);
    }
  }

  /** Over every history of transactions, with foreign code in between, the state account holds
      at least the minimum for whatever length its solver list then has. */
  lemma {:induction false} HistoryKeepsRent(env: Env, w: World, history: seq<Attempt>)
    requires |env.buffers.known| < 255 && Apart(env) && AdminHandlers.RentExempt(env, w)
    ensures AdminHandlers.RentExempt(env, RunHistory(env, w, history).0)
    decreases |history|
  {
    if history != [] {
      var attempt := history[0];
      if RunTx(env, attempt.now, attempt.tx, w).Ok? {
        var ws := RunIsCommitted(env, attempt.now, attempt.tx, w);
        TransactionKeepsRent(env, attempt.now, attempt.tx, ws, |attempt.tx|);
      }
      HistoryKeepsRent(env, Commit(env, w, attempt).world, history[1..]);
    }
  }

  /** In every reachable world a removal never fails for want of rent: the guard in the handler
      is dead code once rent grows with length. */
  lemma RemovalNeverLacksRentInHistory(env: Env, w: World, history: seq<Attempt>, metas: seq<Meta>, body: seq<Byte>)
    requires |env.buffers.known| < 255 && Apart(env) && AdminHandlers.RentExempt(env, w)
    requires WellFormed(w.state) && AdminHandlers.MonotoneRent(env)
    ensures AdminHandlers.ProcessRemoveSolver(env, RunHistory(env, w, history).0, metas, body)
      != Err(AccountNotRentExempt)
  {
    HistoryRefines(env, w, history);
    HistoryKeepsRent(env, w, history);
    AdminHandlers.RemovalNeverLacksRent(env, RunHistory(env, w, history).0, metas, body);
  }

  // ---------------------------------------------------------------------------------------
  // Who reaches the native buffer
  // ---------------------------------------------------------------------------------------

  lemma SolverChangesSpareNative(env: Env, w: World, metas: seq<Meta>, body: seq<Byte>)
    requires Apart(env)
    ensures var r := AdminHandlers.ProcessAddSolver(env, w, metas, body);
      r.Ok? ==> Get(r.value.world.lamports, env.nativeBuffer) >= Get(w.lamports, env.nativeBuffer)
    ensures var r := AdminHandlers.ProcessRemoveSolver(env, w, metas, body);
      r.Ok? ==> Get(r.value.world.lamports, env.nativeBuffer) >= Get(w.lamports, env.nativeBuffer)
  {}

  lemma WithdrawalIsSigned(env: Env, w: World, ix: Ix, body: seq<Byte>)
    requires AdminHandlers.ProcessWithdrawNativeSol(env, w, ix.metas, body).Ok?
    ensures SignedByRole(w, ix, SettlementOwnedOrderAuthority)
  {
    assert ix.metas[1] in ix.metas;
  }

  /** Outside the settle instructions only a withdrawal lowers the native buffer, and it is signed
      by the settlement-owned-order authority, called or not. */
  lemma DispatchNativeAccess(env: Env, now: int, cpi: bool, ixs: seq<Ix>, i: nat, ix: Ix, w: World)
    requires |env.buffers.known| < 255 && Apart(env)
    requires Dispatch(env, now, cpi, ixs, i, ix, w).Ok?
    requires cpi || !RecoverDiscriminator(ix.data).value.0.FinalizeSettle?
    requires Get(Dispatch(env, now, cpi, ixs, i, ix, w).value.world.lamports, env.nativeBuffer)
           < Get(w.lamports, env.nativeBuffer)
    ensures RunByRole(w, ix, WithdrawNativeSol, SettlementOwnedOrderAuthority)
  {
    var (kind, body) := RecoverDiscriminator(ix.data).value;
    if kind.WithdrawNativeSol? {
      WithdrawalIsSigned(env, w, ix, body);
    } else if kind.BeginSettle? {
      BeginConserves(env, now, cpi, ixs, i, ix, w);
    } else if kind.ReclaimBuffer? {
      ReclaimEntriesSpare(env, w, ix.metas[2].key, BufferHandlers.ParseEntries(ix.metas, body).value, false,
                          env.nativeBuffer);
    } else {
      OrderHandlersSpare(env, now, w, ix.metas, body, env.nativeBuffer);
      SolverChangesSpareNative(env, w, ix.metas, body);
    }
  }

  /** Foreign code cannot lower the native buffer itself: if it falls over a list of acts, one of
      them is a call the authority signed. */
  lemma {:induction false} ActsNativeAccess(env: Env, now: int, ixs: seq<Ix>, i: nat, acts: seq<Act>, w: World)
    returns (j: nat, u: World)
    requires |env.buffers.known| < 255 && Apart(env) && DoActs(env, now, ixs, i, acts, w).Ok?
    requires Get(DoActs(env, now, ixs, i, acts, w).value.world.lamports, env.nativeBuffer)
           < Get(w.lamports, env.nativeBuffer)
    ensures j < |acts| && acts[j].Call? && acts[j].ix.programId == env.programId
    ensures ReachedBy(env, now, ixs, i, acts[..j], w, u)
    ensures RunByRole(u, acts[j].ix, WithdrawNativeSol, SettlementOwnedOrderAuthority)
    decreases |acts|
  {
    var w1 := DoAct(env, now, ixs, i, acts[0], w).value.world;
    if Get(w1.lamports, env.nativeBuffer) < Get(w.lamports, env.nativeBuffer) {
      DispatchNativeAccess(env, now, true, ixs, i, acts[0].ix, w);
      j, u := 0, w;
    } else {
      j, u := ActsNativeAccess(env, now, ixs, i, acts[1..], w1);
      assert acts[..j + 1][0] == acts[0] && acts[..j + 1][1..] == acts[1..][..j];
      j := j + 1;
    }
  }

  /** In a committed transaction the native buffer falls over an instruction, foreign ones
      included, only as the payout of a settlement that an approved solver signed, or by a
      withdrawal, called or not, that the settlement-owned-order authority signed. */
  lemma NativeAccessIsLimited(env: Env, now: int, tx: Tx, ws: seq<World>, k: nat)
    requires Committed(env, now, tx, ws) && Apart(env) && k < |tx|
    requires Get(ws[k + 1].lamports, env.nativeBuffer) < Get(ws[k].lamports, env.nativeBuffer)
    ensures || (IsFinalize(env, tx[k].ix) && SolverSettles(env, tx, ws, k))
            || exists cpi, ix, w :: Executes(env, now, tx, ws, k, cpi, ix, w)
                                    && RunByRole(w, ix, WithdrawNativeSol, SettlementOwnedOrderAuthority)
  {
    assert StepAt(env, now, tx, ws, k);
    if IsOpaque(env, tx[k].ix) {
      var j, u := ActsNativeAccess(env, now, Ixs(tx), k, tx[k].acts, ws[k]);
      assert CallsAt(env, now, tx, ws, k, j, tx[k].acts[j].ix, u);
      assert Executes(env, now, tx, ws, k, true, tx[k].acts[j].ix, u);
    } else if IsFinalize(env, tx[k].ix) {
      SettlementIsSolvers(env, now, tx, ws, k);
    } else {
      DispatchNativeAccess(env, now, false, Ixs(tx), k, tx[k].ix, ws[k]);
      assert Executes(env, now, tx, ws, k, false, tx[k].ix, ws[k]);
    }
  }

  // ---------------------------------------------------------------------------------------
  // An order that names itself as its creator
  // ---------------------------------------------------------------------------------------

  /** On a prefunded address, a creation that names the order itself as its creator succeeds. */
  lemma SelfCreatedOrder(env: Env, w: World, a: Address, bump: Byte, intent: Intent.OrderIntent)
    requires Intent.Denotable(intent.buy) && FindOrder(env, intent) == Some((a, bump)) && !ProgramOwned(env, w, a)
    requires Get(w.lamports, a) >= env.rent(OrderAccounts.ORDER_SIZE)
    ensures var metas := [Meta(intent.owner, true), Meta(a, false), Meta(a, false), Meta(env.sysvar, false)];
      var r := OrderHandlers.ProcessCreateOrder(env, w, metas, Intent.EncodeIntent(intent));
      r.Ok? && r.value.world == w.(orders := w.orders[a := OrderAccounts.OrderBody(bump, false, 0, 0, a, intent)])
  {
    Intent.IntentRoundTrip(intent);
    Intent.CheckAgreesWithDecode(Intent.EncodeIntent(intent));
  }

  /** Such an order can only be reclaimed onto itself, which does not conserve lamports. */
  lemma SelfCreatedNeverRefunds(env: Env, now: int, w: World, ix: Ix)
    requires ix.data == [5] && OrderHandlers.ProcessReclaimOrder(env, now, w, ix.metas, []).Ok?
    requires w.orders[ix.metas[0].key].createdBy == ix.metas[0].key && Get(w.lamports, ix.metas[0].key) > 0
    ensures ReclaimsOntoItself(ix, w)
    ensures !Conserves(w, OrderHandlers.ProcessReclaimOrder(env, now, w, ix.metas, []).value.world)
  {
    ReclaimConservesIff(env, now, w, ix);
  }
}
