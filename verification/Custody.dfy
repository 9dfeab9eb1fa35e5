/** Whose funds the program moves: outside its own buffers, a token account is debited only by a
    settlement, and only by the orders its own owner placed on it. */
module Custody {
  import opened Basics
  import opened Intent
  import opened KnownBuffers
  import opened SettleWire
  import opened Ledger
  import opened Worlds
  import opened Settle
  import opened Transactions
  import opened StateAccounts
  import OrderHandlers
  import AdminHandlers
  import BufferHandlers

  /** An address of one of the program's buffers: listed, or derived from some mint. */
  ghost predicate IsBuffer(env: Env, a: Address)
  {
    || (exists i :: 0 <= i < |env.buffers.known| && env.buffers.known[i].address == a)
    || (exists mint, bump :: env.buffers.derive(mint, bump) == Some(a))
  }

  /** The account is still there, of the same owner and mint, and holds no less. */
  ghost predicate NoLess(t: Tokens, t': Tokens, a: Address)
  {
    && a in t && a in t'
    && t'[a].owner == t[a].owner && t'[a].mint == t[a].mint && t'[a].amount >= t[a].amount
  }

  // ---------------------------------------------------------------------------------------
  // BeginSettle
  // ---------------------------------------------------------------------------------------

  /** What the orders of a batch that sell from `a` pull out of it together. */
  function SoldFrom(orders: seq<SettledOrder<Meta>>, a: Address): (n: nat)
  {
    if orders == [] then 0
    else (if orders[0].sellAccount.key == a then Sum(orders[0].amounts) else 0) + SoldFrom(orders[1..], a)
  }

  /** What the pulls of a batch bring into `a` together. */
  function BroughtInto(orders: seq<SettledOrder<Meta>>, a: Address): (n: nat)
    requires WellGrouped(orders)
  {
    if orders == [] then 0
    else PulledInto(orders[0].destinations, orders[0].amounts, a) + BroughtInto(orders[1..], a)
  }

  /** The order named by `o` is stored, live, and was placed on its sell account by that account's
      own owner, for that account's mint. */
  ghost predicate OwnersOrder(w: World, now: int, o: SettledOrder<Meta>)
  {
    && o.orderPda.key in w.orders && o.sellAccount.key in w.tokens
    && var b := w.orders[o.orderPda.key];
       var account := w.tokens[o.sellAccount.key];
       && !b.cancelled && now <= b.intent.validTo
       && b.intent.sell.account == o.sellAccount.key
       && b.intent.owner == account.owner && b.intent.sell.mint == account.mint
  }

  /** One of the orders sells from `a`, and the owner of `a` placed it. */
  ghost predicate SellsFrom(w: World, now: int, orders: seq<SettledOrder<Meta>>, a: Address)
  {
    exists j :: 0 <= j < |orders| && orders[j].sellAccount.key == a && OwnersOrder(w, now, orders[j])
  }

  lemma OrderIsOwners(env: Env, now: int, w: World, o: SettledOrder<Meta>, push: PairedPush)
    requires |env.buffers.known| < 255 && |o.destinations| == |o.amounts|
    requires ProcessOrder(env, now, w, o, push).Ok?
    ensures OwnersOrder(w, now, o)
    ensures var w' := ProcessOrder(env, now, w, o, push).value.world;
      && PulledExactly(w.tokens, o, w'.tokens)
      && w'.orders.Keys == w.orders.Keys
      && forall p :: p in w.orders ==>
           w'.orders[p].intent == w.orders[p].intent && w'.orders[p].cancelled == w.orders[p].cancelled
  {
    ProcessOrderEffect(env, now, w, o, push);
  }

  /** A batch moves exactly its listed amounts, account by account, and every order of it is its
      sell account's owner's. */
  lemma {:induction false} BatchMoves(env: Env, now: int, w: World, orders: seq<SettledOrder<Meta>>,
                                      pushes: seq<PairedPush>, previous: Option<Address>, a: Address)
    requires |env.buffers.known| < 255 && WellGrouped(orders)
    requires SettleOrders(env, now, w, orders, pushes, previous).Ok?
    ensures var w' := SettleOrders(env, now, w, orders, pushes, previous).value.world;
      && SameAccounts(w.tokens, w'.tokens)
      && (a in w.tokens ==>
            w'.tokens[a].amount + SoldFrom(orders, a) == w.tokens[a].amount + BroughtInto(orders, a))
    ensures forall k :: 0 <= k < |orders| ==> OwnersOrder(w, now, orders[k])
    decreases |orders|
  {
    if orders != [] {
      var rest := orders[1..];
      var w1 := ProcessOrder(env, now, w, orders[0], pushes[0]).value.world;
      OrderIsOwners(env, now, w, orders[0], pushes[0]);
      BatchMoves(env, now, w1, rest, pushes[1..], Some(orders[0].orderPda.key), a);
      forall k | 0 <= k < |orders| ensures OwnersOrder(w, now, orders[k]) {
        if k > 0 {
          assert orders[k] == rest[k - 1] && OwnersOrder(w1, now, rest[k - 1]);
        }
      }
    }
  }

  lemma {:induction false} SomeoneSold(orders: seq<SettledOrder<Meta>>, a: Address) returns (k: nat)
    requires SoldFrom(orders, a) > 0
    ensures k < |orders| && orders[k].sellAccount.key == a
    decreases |orders|
  {
    if orders[0].sellAccount.key == a {
      k := 0;
    } else {
      k := SomeoneSold(orders[1..], a);
      k := k + 1;
    }
  }

  /** A begin moves, account by account, exactly what its orders list, each order placed by the
      owner of the account it sells from. */
  lemma BeginMoves(env: Env, now: int, tx: Tx, ws: seq<World>, b: nat, a: Address)
    requires Committed(env, now, tx, ws) && b < |tx| && IsBegin(env, tx[b].ix)
    ensures ParseBegin(tx[b].ix.data, tx[b].ix.metas).Ok?
    ensures var orders := OrdersOf(tx[b].ix);
      && WellGrouped(orders) && SameAccounts(ws[b].tokens, ws[b + 1].tokens)
      && (a in ws[b].tokens ==>
            ws[b + 1].tokens[a].amount + SoldFrom(orders, a) == ws[b].tokens[a].amount + BroughtInto(orders, a))
      && forall k :: 0 <= k < |orders| ==> OwnersOrder(ws[b], now, orders[k])
  {
    PairParses(env, now, tx, ws, b);
    BeginSettled(env, now, tx, ws, b);
    GroupSizes(ParseBegin(tx[b].ix.data, tx[b].ix.metas).value.orders);
    BatchMoves(env, now, ws[b], OrdersOf(tx[b].ix), SeenBy(tx, b).value, None, a);
  }

  /** One of the signers is on the solver list. */
  ghost predicate SignedBySolver(w: World, ix: Ix)
  {
    Attachable(w.state) && exists solver :: solver in Signers(ix.metas) && IsSolver(w.state, solver)
  }

  lemma BeginIsSolvers(env: Env, now: int, tx: Tx, ws: seq<World>, b: nat)
    requires Committed(env, now, tx, ws) && b < |tx| && IsBegin(env, tx[b].ix)
    ensures SignedBySolver(ws[b], tx[b].ix)
  {
    BeginRan(env, now, tx, ws, b);
    var solver := tx[b].ix.metas[0];
    assert ParseBegin(tx[b].ix.data, tx[b].ix.metas).value.solver == solver;
    assert solver.key in Signers(tx[b].ix.metas);
  }

  // ---------------------------------------------------------------------------------------
  // FinalizeSettle
  // ---------------------------------------------------------------------------------------

  lemma AcceptedIsBuffer(env: Env, source: Address, mint: Address, bump: Byte)
    requires IsBufferOf(env.buffers, source, mint, bump)
    ensures IsBuffer(env, source)
  {}

  lemma {:induction false} NotASource(ctx: PayContext, pushes: seq<Push<Meta>>, a: Address)
    requires forall k :: 0 <= k < |pushes| ==> pushes[k].source.key != a
    ensures Debited(ctx, pushes, false, a) == 0 && Debited(ctx, pushes, true, a) == 0
    decreases |pushes|
  {
    if pushes != [] {
      assert forall k :: 0 <= k < |pushes[1..]| ==> pushes[1..][k] == pushes[k + 1];
      NotASource(ctx, pushes[1..], a);
    }
  }

  /** In a committed transaction every source a finalize pays from is a buffer. */
  lemma SourcesAreBuffers(env: Env, now: int, tx: Tx, ws: seq<World>, f: nat, k: nat)
    requires env.Sound() && Committed(env, now, tx, ws) && f < |tx| && IsFinalize(env, tx[f].ix)
    requires ParseFinalize(tx[f].ix.data, tx[f].ix.metas).Ok? && k < |PushesOf(tx[f].ix)|
    ensures IsBuffer(env, PushesOf(tx[f].ix)[k].source.key)
  {
    var b := LinkOf(tx[f].ix);
    FinalizeIsPaired(env, now, tx, ws, f);
    EveryOrderIsPaid(env, now, tx, ws, b);
    var o, p := OrdersOf(tx[b].ix)[k], PushesOf(tx[f].ix)[k];
    assert PaidBy(env, now, ws[b], ws[b + 1], o, p);
    AcceptedIsBuffer(env, p.source.key, BuyMint(ws[b].orders[o.orderPda.key].intent), p.bump);
  }

  /** A payout from other sources takes nothing from `a`. */
  lemma PayoutSpares(ctx: PayContext, f: Funds, pushes: seq<Push<Meta>>, a: Address)
    requires PushFunds(ctx, f, pushes).Ok?
    requires forall k :: 0 <= k < |pushes| ==> pushes[k].source.key != a
    ensures var f' := PushFunds(ctx, f, pushes).value;
      (a in f.tokens ==> NoLess(f.tokens, f'.tokens, a)) && Get(f'.lamports, a) >= Get(f.lamports, a)
  {
    NotASource(ctx, pushes, a);
    PushFundsEffect(ctx, f, pushes);
  }

  /** A finalize checks no source itself, yet in a committed transaction it debits only buffers:
      the begin it is paired with accepted each source. */
  lemma FinalizeDebitsBuffersOnly(env: Env, now: int, tx: Tx, ws: seq<World>, f: nat, a: Address)
    requires env.Sound() && Committed(env, now, tx, ws) && f < |tx| && IsFinalize(env, tx[f].ix)
    requires !IsBuffer(env, a)
    ensures a in ws[f].tokens ==> NoLess(ws[f].tokens, ws[f + 1].tokens, a)
    ensures Get(ws[f + 1].lamports, a) >= Get(ws[f].lamports, a)
  {
    FinalizeRan(env, now, tx, ws, f);
    var pushes := PushesOf(tx[f].ix);
    forall k | 0 <= k < |pushes| ensures pushes[k].source.key != a {
      SourcesAreBuffers(env, now, tx, ws, f, k);
    }
    PayoutSpares(PayContextOf(env, ws[f]), Funds(ws[f].tokens, ws[f].lamports), pushes, a);
  }

  // ---------------------------------------------------------------------------------------
  // Everything else
  // ---------------------------------------------------------------------------------------

  lemma {:induction false} ReclaimedEntriesAreBuffers(env: Env, w: World, recipient: Address,
                                                      entries: seq<BufferHandlers.Entry>, any: bool, k: nat)
    requires BufferHandlers.ReclaimEntries(env, w, recipient, entries, any).Ok? && k < |entries|
    ensures IsBuffer(env, entries[k].buffer)
    decreases |entries|
  {
    var e := entries[0];
    if k == 0 {
      var found := FindBuffer(env, e.mint).value;
      assert env.buffers.derive(e.mint, found.1) == Some(e.buffer);
    } else {
      assert entries[1..][k - 1] == entries[k];
      if w.tokens[e.buffer].amount > e.limit {
        ReclaimedEntriesAreBuffers(env, w, recipient, entries[1..], any, k - 1);
      } else {
        var w1 := BufferHandlers.BurnAndClose(env, w, e, recipient).value;
        ReclaimedEntriesAreBuffers(env, w1, recipient, entries[1..], true, k - 1);
      }
    }
  }

  lemma ReclaimBufferSparesUsers(env: Env, w: World, metas: seq<Meta>, body: seq<Byte>, a: Address)
    requires BufferHandlers.ProcessReclaimBuffer(env, w, metas, body).Ok? && a in w.tokens && !IsBuffer(env, a)
    ensures NoLess(w.tokens, BufferHandlers.ProcessReclaimBuffer(env, w, metas, body).value.world.tokens, a)
  {
    var entries := BufferHandlers.ParseEntries(metas, body).value;
    BufferHandlers.ReclaimBufferEffect(env, w, metas, body);
    forall k | 0 <= k < |entries| ensures entries[k].buffer != a {
      ReclaimedEntriesAreBuffers(env, w, metas[2].key, entries, false, k);
    }
  }

  lemma OrderHandlersLeaveTokens(env: Env, now: int, w: World, metas: seq<Meta>, body: seq<Byte>)
    ensures var r := OrderHandlers.ProcessCreateOrder(env, w, metas, body);
      r.Ok? ==> r.value.world.tokens == w.tokens
    ensures var r := OrderHandlers.ProcessReclaimOrder(env, now, w, metas, body);
      r.Ok? ==> r.value.world.tokens == w.tokens
  {}

  lemma CreateOwnedLeavesTokens(env: Env, w: World, metas: seq<Meta>, body: seq<Byte>)
    ensures var r := OrderHandlers.ProcessCreateSettlementOwnedOrder(env, w, metas, body);
      r.Ok? ==> r.value.world.tokens == w.tokens
  {}

  lemma CancelLeavesTokens(env: Env, w: World, metas: seq<Meta>, body: seq<Byte>)
    ensures var r := OrderHandlers.ProcessCancelOrder(env, w, metas, body);
      r.Ok? ==> r.value.world.tokens == w.tokens
  {}

  lemma AdminHandlersLeaveTokens(env: Env, w: World, metas: seq<Meta>, body: seq<Byte>)
    ensures var r := AdminHandlers.ProcessAddSolver(env, w, metas, body); r.Ok? ==> r.value.world.tokens == w.tokens
    ensures var r := AdminHandlers.ProcessRemoveSolver(env, w, metas, body); r.Ok? ==> r.value.world.tokens == w.tokens
    ensures var r := AdminHandlers.ProcessTransferAuthority(env, w, metas, body);
      r.Ok? ==> r.value.world.tokens == w.tokens
    ensures var r := AdminHandlers.ProcessWithdrawNativeSol(env, w, metas, body);
      r.Ok? ==> r.value.world.tokens == w.tokens
  {}

  lemma LeavesTokens(env: Env, now: int, cpi: bool, ixs: seq<Ix>, i: nat, ix: Ix, w: World)
    requires |env.buffers.known| < 255 && Dispatch(env, now, cpi, ixs, i, ix, w).Ok?
    requires var kind := RecoverDiscriminator(ix.data).value.0;
      (cpi || !IsSettleKind(kind)) && !kind.ReclaimBuffer?
    ensures Dispatch(env, now, cpi, ixs, i, ix, w).value.world.tokens == w.tokens
  {
    var (_, body) := RecoverDiscriminator(ix.data).value;
    OrderHandlersLeaveTokens(env, now, w, ix.metas, body);
    CreateOwnedLeavesTokens(env, w, ix.metas, body);
    CancelLeavesTokens(env, w, ix.metas, body);
    AdminHandlersLeaveTokens(env, w, ix.metas, body);
  }

  /** Outside the settle instructions, and so in every call from another program, nothing but a
      buffer is debited. */
  lemma OthersSpareUsers(env: Env, now: int, cpi: bool, ixs: seq<Ix>, i: nat, ix: Ix, w: World, a: Address)
    requires |env.buffers.known| < 255 && Dispatch(env, now, cpi, ixs, i, ix, w).Ok?
    requires cpi || !IsSettleKind(RecoverDiscriminator(ix.data).value.0)
    requires a in w.tokens && !IsBuffer(env, a)
    ensures NoLess(w.tokens, Dispatch(env, now, cpi, ixs, i, ix, w).value.world.tokens, a)
  {
    var (kind, body) := RecoverDiscriminator(ix.data).value;
    if kind.ReclaimBuffer? {
      ReclaimBufferSparesUsers(env, w, ix.metas, body, a);
    } else {
      LeavesTokens(env, now, cpi, ixs, i, ix, w);
    }
  }

  /** In a committed transaction, an execution of this program, called or at the top level, lowers
      a token account that is not one of its buffers only if it is a settlement with an order that
      the account's owner placed on that very account; and then by no more than such orders
      pull. */
  lemma FundsMoveOnlyForOrders(env: Env, now: int, tx: Tx, ws: seq<World>, k: nat, cpi: bool, ix: Ix, w: World, a: Address)
    requires env.Sound() && Committed(env, now, tx, ws) && k < |tx| && Executes(env, now, tx, ws, k, cpi, ix, w)
    requires a in w.tokens && !IsBuffer(env, a)
    ensures Dispatch(env, now, cpi, Ixs(tx), k, ix, w).Ok?
    ensures var w' := Dispatch(env, now, cpi, Ixs(tx), k, ix, w).value.world;
      && a in w'.tokens && w'.tokens[a].owner == w.tokens[a].owner && w'.tokens[a].mint == w.tokens[a].mint
      && (w'.tokens[a].amount < w.tokens[a].amount ==>
            && !cpi && IsBegin(env, ix) && ParseBegin(ix.data, ix.metas).Ok?
            && w.tokens[a].amount <= w'.tokens[a].amount + SoldFrom(OrdersOf(ix), a)
            && SellsFrom(w, now, OrdersOf(ix), a))
  {
    ExecutedSucceeded(env, now, tx, ws, k, cpi, ix, w);
    if !cpi && IsBegin(env, ix) {
      BeginMoves(env, now, tx, ws, k, a);
      if ws[k + 1].tokens[a].amount < w.tokens[a].amount {
        var j := SomeoneSold(OrdersOf(ix), a);
      }
    } else if !cpi && IsFinalize(env, ix) {
      FinalizeDebitsBuffersOnly(env, now, tx, ws, k, a);
    } else {
      OthersSpareUsers(env, now, cpi, Ixs(tx), k, ix, w, a);
    }
  }

  // ---------------------------------------------------------------------------------------
  // Who reaches the buffers
  // ---------------------------------------------------------------------------------------

  /** The holder of `role` signs the instruction. */
  ghost predicate SignedByRole(w: World, ix: Ix, role: Role)
  {
    Attachable(w.state) && Authority(w.state, role) in Signers(ix.metas)
  }

  /** An instruction of the given kind, signed by the holder of `role`. */
  ghost predicate RunByRole(w: World, ix: Ix, kind: Discriminator, role: Role)
  {
    && RecoverDiscriminator(ix.data).Ok? && RecoverDiscriminator(ix.data).value.0 == kind
    && SignedByRole(w, ix, role)
  }

  lemma ReclaimBufferIsSigned(env: Env, w: World, ix: Ix, body: seq<Byte>)
    requires BufferHandlers.ProcessReclaimBuffer(env, w, ix.metas, body).Ok?
    ensures SignedByRole(w, ix, ReclaimAuthority)
  {
    assert ix.metas[1] in ix.metas;
  }

  /** A settlement instruction at `k` that an approved solver stands behind: a begin the solver
      signed, or the finalize paired with such a begin. */
  ghost predicate SolverSettles(env: Env, tx: Tx, ws: seq<World>, k: nat)
    requires |ws| == |tx| + 1 && k < |tx|
  {
    || (IsBegin(env, tx[k].ix) && SignedBySolver(ws[k], tx[k].ix))
    || (IsFinalize(env, tx[k].ix) && LinkOf(tx[k].ix) < k
        && SignedBySolver(ws[LinkOf(tx[k].ix)], tx[LinkOf(tx[k].ix)].ix))
  }

  lemma SettlementIsSolvers(env: Env, now: int, tx: Tx, ws: seq<World>, k: nat)
    requires Committed(env, now, tx, ws) && k < |tx| && (IsBegin(env, tx[k].ix) || IsFinalize(env, tx[k].ix))
    ensures SolverSettles(env, tx, ws, k)
  {
    if IsBegin(env, tx[k].ix) {
      BeginIsSolvers(env, now, tx, ws, k);
    } else {
      FinalizeIsPaired(env, now, tx, ws, k);
      BeginIsSolvers(env, now, tx, ws, LinkOf(tx[k].ix));
    }
  }

  /** Called or not, an instruction outside the settle pair lowers a token account only as a
      reclaim signed by the reclaim authority. */
  lemma DispatchTokenAccess(env: Env, now: int, cpi: bool, ixs: seq<Ix>, i: nat, ix: Ix, w: World, a: Address)
    requires |env.buffers.known| < 255 && Dispatch(env, now, cpi, ixs, i, ix, w).Ok?
    requires cpi || !IsSettleKind(RecoverDiscriminator(ix.data).value.0)
    requires a in w.tokens && !NoLess(w.tokens, Dispatch(env, now, cpi, ixs, i, ix, w).value.world.tokens, a)
    ensures RunByRole(w, ix, ReclaimBuffer, ReclaimAuthority)
  {
    var (kind, body) := RecoverDiscriminator(ix.data).value;
    if kind.ReclaimBuffer? {
      ReclaimBufferIsSigned(env, w, ix, body);
    } else {
      LeavesTokens(env, now, cpi, ixs, i, ix, w);
    }
  }

  /** In a committed transaction every execution of this program, at the top level or called from
      foreign code, that lowers or removes a token account, buffer or not, is part of a settlement
      an approved solver signed, or a buffer reclaim the reclaim authority signed. */
  lemma TokenAccessIsLimited(env: Env, now: int, tx: Tx, ws: seq<World>, k: nat, cpi: bool, ix: Ix, w: World, a: Address)
    requires Committed(env, now, tx, ws) && k < |tx| && Executes(env, now, tx, ws, k, cpi, ix, w)
    requires a in w.tokens
    ensures Dispatch(env, now, cpi, Ixs(tx), k, ix, w).Ok?
    ensures !NoLess(w.tokens, Dispatch(env, now, cpi, Ixs(tx), k, ix, w).value.world.tokens, a) ==>
      (!cpi && SolverSettles(env, tx, ws, k)) || RunByRole(w, ix, ReclaimBuffer, ReclaimAuthority)
  {
    ExecutedSucceeded(env, now, tx, ws, k, cpi, ix, w);
    if !NoLess(w.tokens, Dispatch(env, now, cpi, Ixs(tx), k, ix, w).value.world.tokens, a) {
      if !cpi && (IsBegin(env, ix) || IsFinalize(env, ix)) {
        SettlementIsSolvers(env, now, tx, ws, k);
      } else {
        DispatchTokenAccess(env, now, cpi, Ixs(tx), k, ix, w, a);
      }
    }
  }
}
