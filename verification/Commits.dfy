/** When a settlement goes through: enough balance and room on every account is all that a batch
    of valid orders and its payout need. */
module Commits {
  import opened Basics
  import opened SettleWire
  import opened Ledger
  import opened Worlds
  import opened Settle
  import opened Custody
  import opened Fills

  // ---------------------------------------------------------------------------------------
  // Pulls
  // ---------------------------------------------------------------------------------------

  /** Both accounts exist, under one token program and for one mint. */
  ghost predicate SameKind(t: Tokens, from: Address, to: Address)
  {
    from in t && to in t && t[from].program == t[to].program && t[from].mint == t[to].mint
  }

  /** The mint slot is left empty or names the account's own mint, which exists. */
  ghost predicate MintSlotFits(sysvar: Address, mints: map<Address, Mint>, account: TokenAccount, slot: Address)
  {
    var mint := MaybeMint(sysvar, slot);
    ReadMint(mints, account.program, mint).Ok? && (mint.Some? ==> mint.value == account.mint)
  }

  /** The pulls of `o` are positive and stay among accounts of one kind. */
  ghost predicate Matched(t: Tokens, o: SettledOrder<Meta>)
  {
    && |o.destinations| == |o.amounts| && o.sellAccount.key in t
    && (forall k :: 0 <= k < |o.destinations| ==> SameKind(t, o.sellAccount.key, o.destinations[k].key))
    && (forall k :: 0 <= k < |o.amounts| ==> o.amounts[k] > 0)
  }

  /** The account holds `out`, lets the authority move it, and has room for `into`. */
  ghost predicate Enough(authority: Address, account: TokenAccount, out: nat, into: nat)
  {
    && out <= account.amount && account.amount + into <= U64_MAX
    && (out > 0 ==> MayMove(account, authority, out))
  }

  /** What the pulls of `o` and then those of `later` take out of `a`, and bring into it. */
  ghost function Out(o: SettledOrder<Meta>, later: seq<SettledOrder<Meta>>, a: Address): (n: nat)
  {
    (if o.sellAccount.key == a then Sum(o.amounts) else 0) + SoldFrom(later, a)
  }

  ghost function Into(o: SettledOrder<Meta>, later: seq<SettledOrder<Meta>>, a: Address): (n: nat)
    requires |o.destinations| == |o.amounts| && WellGrouped(later)
  {
    PulledInto(o.destinations, o.amounts, a) + BroughtInto(later, a)
  }

  ghost predicate Covers(authority: Address, t: Tokens, o: SettledOrder<Meta>, later: seq<SettledOrder<Meta>>)
    requires |o.destinations| == |o.amounts| && WellGrouped(later)
  {
    forall a :: a in t ==> Enough(authority, t[a], Out(o, later, a), Into(o, later, a))
  }

  /** Every account covers the pulls of the whole batch. */
  ghost predicate Funded(authority: Address, t: Tokens, orders: seq<SettledOrder<Meta>>)
    requires WellGrouped(orders)
  {
    forall a :: a in t ==> Enough(authority, t[a], SoldFrom(orders, a), BroughtInto(orders, a))
  }

  function Tail(o: SettledOrder<Meta>): (r: SettledOrder<Meta>)
    requires o.destinations != [] && o.amounts != []
  {
    o.(destinations := o.destinations[1..], amounts := o.amounts[1..])
  }

  lemma MayMoveLess(account: TokenAccount, authority: Address, more: U64, less: U64)
    requires MayMove(account, authority, more) && less <= more && more <= account.amount
    ensures MayMove(account, authority, less)
    ensures less < more ==> MayMove(Debit(account, authority, less), authority, more - less)
  {}

  /** A covered first pull succeeds. */
  lemma PullSucceeds(authority: Address, t: Tokens, via: Option<Address>, o: SettledOrder<Meta>,
                     later: seq<SettledOrder<Meta>>)
    requires Matched(t, o) && o.amounts != [] && WellGrouped(later) && Covers(authority, t, o, later)
    requires via.Some? ==> via.value == t[o.sellAccount.key].mint
    ensures Transfer(t, t[o.sellAccount.key].program, o.sellAccount.key, o.destinations[0].key, via,
                     authority, o.amounts[0]).Ok?
  {
    var from, to, x := o.sellAccount.key, o.destinations[0].key, o.amounts[0];
    assert SameKind(t, from, to) && x > 0;
    assert Enough(authority, t[from], Out(o, later, from), Into(o, later, from));
    assert Enough(authority, t[to], Out(o, later, to), Into(o, later, to));
    MayMoveLess(t[from], authority, Out(o, later, from), x);
  }

  /** It leaves every account covering the rest. */
  lemma PullKeepsEnough(authority: Address, t: Tokens, via: Option<Address>, o: SettledOrder<Meta>,
                        later: seq<SettledOrder<Meta>>, t': Tokens, a: Address)
    requires Matched(t, o) && o.amounts != [] && WellGrouped(later)
    requires Transfer(t, t[o.sellAccount.key].program, o.sellAccount.key, o.destinations[0].key, via,
                      authority, o.amounts[0]) == Ok(t')
    requires a in t && a in t' && Enough(authority, t[a], Out(o, later, a), Into(o, later, a))
    ensures Enough(authority, t'[a], Out(Tail(o), later, a), Into(Tail(o), later, a))
  {
    var from, to, x := o.sellAccount.key, o.destinations[0].key, o.amounts[0];
    assert o.amounts[0] > 0;
    if a == from {
      MayMoveLess(t[from], authority, Out(o, later, from), x);
    }
  }

  lemma PullStep(authority: Address, t: Tokens, via: Option<Address>, o: SettledOrder<Meta>, later: seq<SettledOrder<Meta>>)
    requires Matched(t, o) && o.amounts != [] && WellGrouped(later) && Covers(authority, t, o, later)
    requires via.Some? ==> via.value == t[o.sellAccount.key].mint
    ensures var r := Transfer(t, t[o.sellAccount.key].program, o.sellAccount.key, o.destinations[0].key, via,
                              authority, o.amounts[0]);
      && r.Ok? && SameAccounts(t, r.value) && Matched(r.value, Tail(o)) && Covers(authority, r.value, Tail(o), later)
  {
    var from, to, x := o.sellAccount.key, o.destinations[0].key, o.amounts[0];
    PullSucceeds(authority, t, via, o, later);
    TransferEffect(t, t[from].program, from, to, via, authority, x);
    var t' := Transfer(t, t[from].program, from, to, via, authority, x).value;
    forall a | a in t' ensures Enough(authority, t'[a], Out(Tail(o), later, a), Into(Tail(o), later, a)) {
      PullKeepsEnough(authority, t, via, o, later, t', a);
    }
    forall k | 0 <= k < |Tail(o).destinations|
      ensures SameKind(t', from, Tail(o).destinations[k].key) && Tail(o).amounts[k] > 0
    {
      assert Tail(o).destinations[k] == o.destinations[k + 1] && Tail(o).amounts[k] == o.amounts[k + 1];
      assert SameKind(t, from, o.destinations[k + 1].key);
    }
  }

  /** All covered pulls of one order succeed and leave the later orders covered. */
  lemma {:induction false} PullsSucceed(authority: Address, t: Tokens, via: Option<Address>, o: SettledOrder<Meta>,
                                        later: seq<SettledOrder<Meta>>, sum: U64)
    requires Matched(t, o) && WellGrouped(later) && Covers(authority, t, o, later)
    requires via.Some? ==> via.value == t[o.sellAccount.key].mint
    requires sum + Sum(o.amounts) <= U64_MAX
    ensures var r := PullAll(t, t[o.sellAccount.key].program, o.sellAccount.key, via, authority,
                             o.destinations, o.amounts, sum);
      r.Ok? && Funded(authority, r.value.0, later)
    decreases |o.amounts|
  {
    if o.amounts == [] {
      forall a | a in t ensures Enough(authority, t[a], SoldFrom(later, a), BroughtInto(later, a)) {
        assert Enough(authority, t[a], Out(o, later, a), Into(o, later, a));
      }
    } else {
      PullStep(authority, t, via, o, later);
      var t' := Transfer(t, t[o.sellAccount.key].program, o.sellAccount.key, o.destinations[0].key, via,
                         authority, o.amounts[0]).value;
      PullsSucceed(authority, t', via, Tail(o), later, sum + o.amounts[0]);
    }
  }

  // ---------------------------------------------------------------------------------------
  // A batch
  // ---------------------------------------------------------------------------------------

  /** Order and push pass every check that does not depend on balances. */
  ghost predicate Ready(env: Env, now: int, w: World, o: SettledOrder<Meta>, push: PairedPush)
  {
    && |env.buffers.known| < 255 && Passes(env, now, w, o, push)
    && Matched(w.tokens, o)
    && MintSlotFits(env.sysvar, w.mints, w.tokens[o.sellAccount.key], o.sellMint.key)
    && Sum(o.amounts) <= U64_MAX
    && var b := w.orders[o.orderPda.key];
       Acceptable(b.intent, b.withdrawn, b.received, Sum(o.amounts), push.amount)
  }

  lemma OrderSucceeds(env: Env, now: int, w: World, o: SettledOrder<Meta>, push: PairedPush,
                      later: seq<SettledOrder<Meta>>)
    requires Ready(env, now, w, o, push) && WellGrouped(later) && Covers(env.statePda, w.tokens, o, later)
    ensures var r := ProcessOrder(env, now, w, o, push);
      r.Ok? && Funded(env.statePda, r.value.world.tokens, later)
  {
    CheckOrderExact(env, now, w, o, push);
    FillExact(w.orders[o.orderPda.key], Sum(o.amounts), push.amount);
    PullsSucceed(env.statePda, w.tokens, MaybeMint(env.sysvar, o.sellMint.key), o, later, 0);
    PulledAmount(env, w, o);
  }

  /** Settling one order leaves another ready. */
  lemma ReadyStays(env: Env, now: int, w: World, w': World, o: SettledOrder<Meta>, push: PairedPush)
    requires Ready(env, now, w, o, push) && SameAccounts(w.tokens, w'.tokens) && w'.mints == w.mints
    requires o.orderPda.key in w'.orders && w'.orders[o.orderPda.key] == w.orders[o.orderPda.key]
    ensures Ready(env, now, w', o, push)
  {
    forall k | 0 <= k < |o.destinations| ensures SameKind(w'.tokens, o.sellAccount.key, o.destinations[k].key) {
      assert SameKind(w.tokens, o.sellAccount.key, o.destinations[k].key);
    }
  }

  lemma LaterStaysReady(env: Env, now: int, w: World, o: SettledOrder<Meta>, push: PairedPush,
                        later: SettledOrder<Meta>, laterPush: PairedPush)
    requires |env.buffers.known| < 255 && |o.destinations| == |o.amounts| && ProcessOrder(env, now, w, o, push).Ok?
    requires Less(o.orderPda.key, later.orderPda.key) && Ready(env, now, w, later, laterPush)
    ensures Ready(env, now, ProcessOrder(env, now, w, o, push).value.world, later, laterPush)
  {
    LessAsymmetric(o.orderPda.key, later.orderPda.key);
    ProcessOrderEffect(env, now, w, o, push);
    ReadyStays(env, now, w, ProcessOrder(env, now, w, o, push).value.world, later, laterPush);
  }

  ghost predicate Above(previous: Option<Address>, orders: seq<SettledOrder<Meta>>)
  {
    && (previous.Some? && orders != [] ==> Less(previous.value, orders[0].orderPda.key))
    && forall i, j :: 0 <= i < j < |orders| ==> Less(orders[i].orderPda.key, orders[j].orderPda.key)
  }

  /** The first order of a funded batch succeeds and leaves the rest ready and funded. */
  lemma BatchStep(env: Env, now: int, w: World, orders: seq<SettledOrder<Meta>>, pushes: seq<PairedPush>) returns (w1: World)
    requires |env.buffers.known| < 255 && |orders| == |pushes| && WellGrouped(orders) && orders != []
    requires forall k :: 0 <= k < |orders| ==> Ready(env, now, w, orders[k], pushes[k])
    requires Above(None, orders) && Funded(env.statePda, w.tokens, orders)
    ensures ProcessOrder(env, now, w, orders[0], pushes[0]).Ok?
    ensures w1 == ProcessOrder(env, now, w, orders[0], pushes[0]).value.world
    ensures WellGrouped(orders[1..]) && Funded(env.statePda, w1.tokens, orders[1..])
    ensures forall k :: 0 <= k < |orders[1..]| ==> Ready(env, now, w1, orders[1..][k], pushes[1..][k])
  {
    var o, later := orders[0], orders[1..];
    forall a | a in w.tokens ensures Enough(env.statePda, w.tokens[a], Out(o, later, a), Into(o, later, a)) {
      assert Enough(env.statePda, w.tokens[a], SoldFrom(orders, a), BroughtInto(orders, a));
    }
    OrderSucceeds(env, now, w, o, pushes[0], later);
    w1 := ProcessOrder(env, now, w, o, pushes[0]).value.world;
    forall k | 0 <= k < |later| ensures Ready(env, now, w1, later[k], pushes[1..][k]) {
      LaterStaysReady(env, now, w, o, pushes[0], orders[k + 1], pushes[k + 1]);
    }
  }

  /** A batch of ready orders, addresses increasing, with one push each and every account covering
      its pulls, settles. */
  lemma {:induction false} BatchSucceeds(env: Env, now: int, w: World, orders: seq<SettledOrder<Meta>>,
                                         pushes: seq<PairedPush>, previous: Option<Address>)
    requires |env.buffers.known| < 255 && |orders| == |pushes| && WellGrouped(orders)
    requires forall k :: 0 <= k < |orders| ==> Ready(env, now, w, orders[k], pushes[k])
    requires Above(previous, orders) && Funded(env.statePda, w.tokens, orders)
    ensures SettleOrders(env, now, w, orders, pushes, previous).Ok?
    decreases |orders|
  {
    if orders != [] {
      var w1 := BatchStep(env, now, w, orders, pushes);
      BatchSucceeds(env, now, w1, orders[1..], pushes[1..], Some(orders[0].orderPda.key));
    }
  }

  // ---------------------------------------------------------------------------------------
  // Pulls delegate nothing
  // ---------------------------------------------------------------------------------------

  lemma {:induction false} PullsDelegateNothing(t: Tokens, program: TokenProgram, from: Address, via: Option<Address>,
                                                authority: Address, destinations: seq<Meta>, amounts: seq<U64>,
                                                sum: U64, a: Address)
    requires PullAll(t, program, from, via, authority, destinations, amounts, sum).Ok?
    requires a in t && t[a].delegate != Some(authority)
    ensures var t' := PullAll(t, program, from, via, authority, destinations, amounts, sum).value.0;
      a in t' && t'[a].delegate != Some(authority)
    decreases |amounts|
  {
    if destinations != [] && amounts != [] {
      var t1 := Transfer(t, program, from, destinations[0].key, via, authority, amounts[0]).value;
      PullsDelegateNothing(t1, program, from, via, authority, destinations[1..], amounts[1..], sum + amounts[0], a);
    }
  }

  lemma {:induction false} BatchDelegatesNothing(env: Env, now: int, w: World, orders: seq<SettledOrder<Meta>>,
                                                 pushes: seq<PairedPush>, previous: Option<Address>, a: Address)
    requires |env.buffers.known| < 255 && SettleOrders(env, now, w, orders, pushes, previous).Ok?
    requires a in w.tokens && w.tokens[a].delegate != Some(env.statePda)
    ensures var t' := SettleOrders(env, now, w, orders, pushes, previous).value.world.tokens;
      a in t' && t'[a].delegate != Some(env.statePda)
    decreases |orders|
  {
    if orders != [] {
      var o := orders[0];
      var w1 := ProcessOrder(env, now, w, o, pushes[0]).value.world;
      PullsDelegateNothing(w.tokens, w.tokens[o.sellAccount.key].program, o.sellAccount.key,
                           MaybeMint(env.sysvar, o.sellMint.key), env.statePda, o.destinations, o.amounts, 0, a);
      BatchDelegatesNothing(env, now, w1, orders[1..], pushes[1..], Some(o.orderPda.key), a);
    }
  }

  // ---------------------------------------------------------------------------------------
  // The payout
  // ---------------------------------------------------------------------------------------

  /** A token push between accounts of one kind, out of an account the program owns. */
  ghost predicate Payable(ctx: PayContext, t: Tokens, p: Push<Meta>)
  {
    && SameKind(t, p.source.key, p.destination.key)
    && t[p.source.key].owner == ctx.statePda && t[p.source.key].delegate != Some(ctx.statePda)
    && MintSlotFits(ctx.sysvar, ctx.mints, t[p.destination.key], p.mint.key)
  }

  ghost predicate TokensCover(ctx: PayContext, t: Tokens, pushes: seq<Push<Meta>>)
  {
    && (forall k :: 0 <= k < |pushes| && !IsNative(ctx, pushes[k]) ==> Payable(ctx, t, pushes[k]))
    && forall a :: a in t ==>
         Debited(ctx, pushes, false, a) <= t[a].amount && t[a].amount + Credited(ctx, pushes, false, a) <= U64_MAX
  }

  lemma PayTokenStep(ctx: PayContext, t: Tokens, pushes: seq<Push<Meta>>)
    requires pushes != [] && !IsNative(ctx, pushes[0]) && TokensCover(ctx, t, pushes)
    ensures PayToken(ctx, t, pushes[0]).Ok? && TokensCover(ctx, PayToken(ctx, t, pushes[0]).value, pushes[1..])
  {
    var p := pushes[0];
    assert Payable(ctx, t, p);
    var program := t[p.destination.key].program;
    var t' := PayToken(ctx, t, p).value;
    TransferEffect(t, program, p.source.key, p.destination.key, MaybeMint(ctx.sysvar, p.mint.key), ctx.statePda, p.amount);
    forall k | 0 <= k < |pushes[1..]| && !IsNative(ctx, pushes[1..][k]) ensures Payable(ctx, t', pushes[1..][k]) {
      assert Payable(ctx, t, pushes[k + 1]);
    }
  }

  lemma {:induction false} TokenPassSucceeds(ctx: PayContext, t: Tokens, pushes: seq<Push<Meta>>)
    requires TokensCover(ctx, t, pushes)
    ensures TokenPass(ctx, t, pushes).Ok?
    decreases |pushes|
  {
    if pushes != [] {
      if IsNative(ctx, pushes[0]) {
        assert forall k :: 0 <= k < |pushes[1..]| ==> pushes[1..][k] == pushes[k + 1];
        TokenPassSucceeds(ctx, t, pushes[1..]);
      } else {
        PayTokenStep(ctx, t, pushes);
        TokenPassSucceeds(ctx, PayToken(ctx, t, pushes[0]).value, pushes[1..]);
      }
    }
  }

  ghost predicate LamportsCover(ctx: PayContext, l: Lamports, pushes: seq<Push<Meta>>)
  {
    forall a :: Debited(ctx, pushes, true, a) <= Get(l, a) && Get(l, a) + Credited(ctx, pushes, true, a) <= U64_MAX
  }

  lemma {:induction false} NativePassSucceeds(ctx: PayContext, l: Lamports, pushes: seq<Push<Meta>>)
    requires LamportsCover(ctx, l, pushes)
    ensures NativePass(ctx, l, pushes).Ok?
    decreases |pushes|
  {
    if pushes != [] {
      var p := pushes[0];
      if IsNative(ctx, p) {
        assert Debited(ctx, pushes, true, p.source.key) <= Get(l, p.source.key);
        assert Get(l, p.destination.key) + Credited(ctx, pushes, true, p.destination.key) <= U64_MAX;
        MoveConserves(l, p.source.key, p.destination.key, p.amount);
        NativePassSucceeds(ctx, PayNative(l, p).value, pushes[1..]);
      } else {
        NativePassSucceeds(ctx, l, pushes[1..]);
      }
    }
  }

  /** Covered on both ledgers, with something left in a paying native buffer, a payout succeeds. */
  lemma PayoutSucceeds(ctx: PayContext, f: Funds, pushes: seq<Push<Meta>>)
    requires TokensCover(ctx, f.tokens, pushes) && LamportsCover(ctx, f.lamports, pushes)
    requires AnyNative(ctx, pushes) ==>
      Debited(ctx, pushes, true, ctx.nativeBuffer) < Get(f.lamports, ctx.nativeBuffer)
    ensures PushFunds(ctx, f, pushes).Ok?
  {
    TokenPassSucceeds(ctx, f.tokens, pushes);
    NativePassSucceeds(ctx, f.lamports, pushes);
    NativePassEffect(ctx, f.lamports, pushes);
  }
}
