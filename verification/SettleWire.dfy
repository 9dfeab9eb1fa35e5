/** The wire format of `BeginSettle` and `FinalizeSettle`: parsing, the order cursor, and the
    view of a `FinalizeSettle` that `BeginSettle` gets through introspection. */
module SettleWire {
  import opened Basics

  /** An account as an instruction names it. */
  datatype Meta = Meta(key: Address, signer: bool)

  datatype Discriminator =
    | BeginSettle | FinalizeSettle | CreateOrder | Initialize | CreateBuffer | ReclaimOrder
    | ReclaimBuffer | TransferAuthority | AddSolver | RemoveSolver
    | CreateSettlementOwnedOrder | CancelOrder | WithdrawNativeSol

  const DISCRIMINATORS: seq<Discriminator> :=
    [BeginSettle, FinalizeSettle, CreateOrder, Initialize, CreateBuffer, ReclaimOrder,
     ReclaimBuffer, TransferAuthority, AddSolver, RemoveSolver,
     CreateSettlementOwnedOrder, CancelOrder, WithdrawNativeSol]

  function RecoverDiscriminator(data: seq<Byte>): (r: Result<(Discriminator, seq<Byte>)>)
    ensures r.Ok? ==> data != [] && r.value.1 == data[1..]
    ensures r.Ok? && r.value.0.BeginSettle? <==> data != [] && data[0] == 0
    ensures r.Ok? && r.value.0.FinalizeSettle? <==> data != [] && data[0] == 1
  {
    if data == [] || data[0] >= |DISCRIMINATORS| then Err(InvalidInstructionData)
    else Ok((DISCRIMINATORS[data[0]], data[1..]))
  }

  /** Which instruction each leading byte selects. */
  lemma DiscriminatorBytes(data: seq<Byte>)
    requires data != []
    ensures RecoverDiscriminator(data).Ok? <==> data[0] <= 12
    ensures data[0] <= 12 ==>
      var (kind, rest) := RecoverDiscriminator(data).value;
      && rest == data[1..]
      && (kind.BeginSettle? <==> data[0] == 0) && (kind.FinalizeSettle? <==> data[0] == 1)
      && (kind.CreateOrder? <==> data[0] == 2) && (kind.Initialize? <==> data[0] == 3)
      && (kind.CreateBuffer? <==> data[0] == 4) && (kind.ReclaimOrder? <==> data[0] == 5)
      && (kind.ReclaimBuffer? <==> data[0] == 6) && (kind.TransferAuthority? <==> data[0] == 7)
      && (kind.AddSolver? <==> data[0] == 8) && (kind.RemoveSolver? <==> data[0] == 9)
      && (kind.CreateSettlementOwnedOrder? <==> data[0] == 10) && (kind.CancelOrder? <==> data[0] == 11)
      && (kind.WithdrawNativeSol? <==> data[0] == 12)
  {}

  /** The little-endian `u16` linking a settle instruction to its counterpart. */
  function RecoverCounterpart(body: seq<Byte>): (r: Result<(nat, seq<Byte>)>)
    ensures r.Ok? ==> r.value.0 < 0x1_0000
  {
    if |body| < 2 then Err(InvalidInstructionData)
    else Ok((body[0] as int + 256 * (body[1] as int), body[2..]))
  }

  // ---------------------------------------------------------------------------------------
  // BeginSettle
  // ---------------------------------------------------------------------------------------

  /** The grouped orders: `3 + counts[k]` accounts and `counts[k]` amounts for order `k`. */
  datatype SettledOrders<A> = SettledOrders(accounts: seq<A>, counts: seq<Byte>, amounts: seq<U64>)

  datatype SettledOrder<A> = SettledOrder(
    orderPda: A, sellAccount: A, sellMint: A, destinations: seq<A>, amounts: seq<U64>)

  datatype BeginInput<A> = BeginInput(
    finalizeIx: nat, auctionId: int, solver: A, sysvar: A, statePda: A, orders: SettledOrders<A>)

  function SignedOf(v: U64): (x: int)
  {
    if v < 0x8000_0000_0000_0000 then v else v - 0x1_0000_0000_0000_0000
  }

  /** What parsing guarantees: every destination has one amount and one order. */
  predicate Consistent<A>(o: SettledOrders<A>)
  {
    |o.accounts| == 3 * |o.counts| + |o.amounts| && Sum(o.counts) == |o.amounts|
  }

  /** The variable part: `n` counts, then amounts, checked against the order accounts. */
  function ParseOrders<A>(n: Byte, tail: seq<Byte>, accounts: seq<A>): (r: Result<SettledOrders<A>>)
    ensures r.Ok? ==> Consistent(r.value)
  {
    if |tail| < n then Err(InvalidInstructionData) else
    var counts := tail[..n];
    var amountBytes := tail[n..];
    if |amountBytes| % 8 != 0 then Err(InvalidInstructionData) else
    var amounts := U64Chunks(amountBytes);
    if |accounts| != 3 * n + |amounts| then Err(AccountCountNotMatchingOrderCount) else
    if Sum(counts) != |amounts| then Err(TransferCountMismatch) else
    Ok(SettledOrders(accounts, counts, amounts))
  }

  function ParseBegin<A>(data: seq<Byte>, accounts: seq<A>): (r: Result<BeginInput<A>>)
    ensures r.Ok? ==> Consistent(r.value.orders) && r.value.finalizeIx < 0x1_0000
  {
    var (kind, rest) :- RecoverDiscriminator(data);
    if !kind.BeginSettle? then Err(InvalidInstructionData) else
    var (finalizeIx, body) :- RecoverCounterpart(rest);
    if |accounts| < 5 then Err(NotEnoughAccountKeys) else
    if |body| < 9 then Err(InvalidInstructionData) else
    var orders :- ParseOrders(body[8], body[9..], accounts[5..]);
    Ok(BeginInput(finalizeIx, SignedOf(U64OfBytes(body[..8])), accounts[0], accounts[1], accounts[2], orders))
  }

  /** The shape of a BeginSettle: a fixed head, `n` count bytes, `m` amounts, and the accounts for
      `n` orders with `m` pulls between them. */
  ghost predicate BeginShape(data: seq<Byte>, accounts: nat)
  {
    && |data| >= 12 && data[0] == 0
    && var n: nat := data[11];
       && |data| >= 12 + n && (|data| - 12 - n) % 8 == 0
       && accounts == 5 + 3 * n + (|data| - 12 - n) / 8 && Sum(data[12..12 + n]) == (|data| - 12 - n) / 8
  }

  /** Parsing succeeds exactly on that shape, and reads every field from its own bytes. */
  lemma ParseBeginExact<A>(data: seq<Byte>, accounts: seq<A>)
    ensures ParseBegin(data, accounts).Ok? <==> BeginShape(data, |accounts|)
    ensures ParseBegin(data, accounts).Ok? ==>
      var input, n := ParseBegin(data, accounts).value, data[11];
      var id := U64OfBytes(data[3..11]);
      && input.finalizeIx == data[1] as int + 256 * (data[2] as int)
      && input.auctionId == (if id < 0x8000_0000_0000_0000 then id else id - 0x1_0000_0000_0000_0000)
      && input.solver == accounts[0] && input.sysvar == accounts[1] && input.statePda == accounts[2]
      && input.orders.accounts == accounts[5..] && input.orders.counts == data[12..12 + n]
      && |input.orders.amounts| == (|data| - 12 - n) / 8
      && forall k :: 0 <= k < |input.orders.amounts| ==>
           input.orders.amounts[k] == U64OfBytes(data[12 + n + 8 * k..12 + n + 8 * k + 8])
  {
    if |data| >= 12 {
      var body, n := data[1..][2..], data[11];
      assert body == data[3..] && body[8] == n && body[..8] == data[3..11];
      var tail := body[9..];
      assert tail == data[12..];
      if |tail| >= n {
        assert tail[..n] == data[12..12 + n] && tail[n..] == data[12 + n..];
        forall k | 0 <= k < |data[12 + n..]| / 8
          ensures data[12 + n..][8 * k..8 * k + 8] == data[12 + n + 8 * k..12 + n + 8 * k + 8] {}
      }
    }
  }

  /** The orders, group by group. */
  function SplitOrders<A>(o: SettledOrders<A>): (r: seq<SettledOrder<A>>)
    requires Consistent(o)
    ensures |r| == |o.counts|
    decreases |o.counts|
  {
    if o.counts == [] then [] else
    var c := o.counts[0];
    [SettledOrder(o.accounts[0], o.accounts[1], o.accounts[2], o.accounts[3..3 + c], o.amounts[..c])]
    + SplitOrders(SettledOrders(o.accounts[3 + c..], o.counts[1..], o.amounts[c..]))
  }

  function AccountGroup<A>(o: SettledOrder<A>): (s: seq<A>)
  {
    [o.orderPda, o.sellAccount, o.sellMint] + o.destinations
  }

  function AccountGroups<A>(orders: seq<SettledOrder<A>>): (s: seq<seq<A>>)
  {
    seq(|orders|, k requires 0 <= k < |orders| => AccountGroup(orders[k]))
  }

  function AmountGroups<A>(orders: seq<SettledOrder<A>>): (s: seq<seq<U64>>)
  {
    seq(|orders|, k requires 0 <= k < |orders| => orders[k].amounts)
  }

  /** What remains to split after the first group. */
  function AfterFirst<A>(o: SettledOrders<A>): (r: SettledOrders<A>)
    requires Consistent(o) && o.counts != []
    ensures Consistent(r)
    ensures SplitOrders(o)[1..] == SplitOrders(r)
  {
    SettledOrders(o.accounts[3 + o.counts[0]..], o.counts[1..], o.amounts[o.counts[0]..])
  }

  lemma FirstGroup<A>(o: SettledOrders<A>)
    requires Consistent(o) && o.counts != []
    ensures o.accounts == AccountGroup(SplitOrders(o)[0]) + AfterFirst(o).accounts
  {
    var c := o.counts[0];
    var a := o.accounts;
    assert a == a[..3 + c] + a[3 + c..];
    assert a[..3 + c] == [a[0], a[1], a[2]] + a[3..3 + c];
  }

  lemma FlattenAccountGroups<A>(orders: seq<SettledOrder<A>>)
    requires orders != []
    ensures Flatten(AccountGroups(orders)) == AccountGroup(orders[0]) + Flatten(AccountGroups(orders[1..]))
  {
    assert AccountGroups(orders)[1..] == AccountGroups(orders[1..]);
  }

  lemma {:induction false} AccountGroupsCover<A>(o: SettledOrders<A>)
    requires Consistent(o)
    ensures Flatten(AccountGroups(SplitOrders(o))) == o.accounts
    decreases |o.counts|
  {
    if o.counts != [] {
      AccountGroupsCover(AfterFirst(o));
      FlattenAccountGroups(SplitOrders(o));
      FirstGroup(o);
    }
  }

  lemma {:induction false} AmountGroupsCover<A>(o: SettledOrders<A>)
    requires Consistent(o)
    ensures Flatten(AmountGroups(SplitOrders(o))) == o.amounts
    decreases |o.counts|
  {
    if o.counts != [] {
      AmountGroupsCover(AfterFirst(o));
      var orders := SplitOrders(o);
      assert AmountGroups(orders)[1..] == AmountGroups(orders[1..]);
      assert o.amounts == orders[0].amounts + AfterFirst(o).amounts;
    }
  }

  lemma {:induction false} GroupSizes<A>(o: SettledOrders<A>)
    requires Consistent(o)
    ensures forall k :: 0 <= k < |o.counts| ==>
      |SplitOrders(o)[k].destinations| == |SplitOrders(o)[k].amounts| == o.counts[k]
    decreases |o.counts|
  {
    if o.counts != [] {
      GroupSizes(AfterFirst(o));
      forall k | 1 <= k < |o.counts|
        ensures |SplitOrders(o)[k].destinations| == |SplitOrders(o)[k].amounts| == o.counts[k]
      {
        assert SplitOrders(o)[k] == SplitOrders(o)[1..][k - 1];
      }
    }
  }

  /** The yielded groups are exactly the input: nothing dropped, repeated or moved, and each
      order gets as many destinations and amounts as its count says. */
  lemma SplitCoversInput<A>(o: SettledOrders<A>)
    requires Consistent(o)
    ensures |SplitOrders(o)| == |o.counts|
    ensures Flatten(AccountGroups(SplitOrders(o))) == o.accounts
    ensures Flatten(AmountGroups(SplitOrders(o))) == o.amounts
    ensures forall k :: 0 <= k < |o.counts| ==>
      |SplitOrders(o)[k].destinations| == |SplitOrders(o)[k].amounts| == o.counts[k]
  {
    AccountGroupsCover(o);
    AmountGroupsCover(o);
    GroupSizes(o);
  }

  /** The iterator over settled orders: three cursors advanced together. */
  class OrderCursor<A> {
    const counts: seq<Byte>
    const amounts: seq<U64>
    var rest: seq<A>
    var i: nat
    var amountOffset: nat

    ghost predicate Valid()
      reads this
    {
      && i <= |counts|
      && amountOffset <= |amounts|
      && Consistent(SettledOrders(rest, counts[i..], amounts[amountOffset..]))
    }

    /** The orders not yielded yet. */
    ghost function Remaining(): (r: seq<SettledOrder<A>>)
      requires Valid()
      reads this
      ensures |r| == |counts| - i
    {
      SplitOrders(SettledOrders(rest, counts[i..], amounts[amountOffset..]))
    }

    constructor (o: SettledOrders<A>)
      requires Consistent(o)
      ensures Valid() && Remaining() == SplitOrders(o)
    {
      counts, amounts, rest, i, amountOffset := o.counts, o.amounts, o.accounts, 0, 0;
      new;
      assert counts[0..] == o.counts && amounts[0..] == o.amounts;
    }

    method Next() returns (r: Option<SettledOrder<A>>)
      requires Valid()
      modifies this
      ensures Valid()
      ensures old(Remaining()) == [] ==> r == None && Remaining() == []
      ensures old(Remaining()) != [] ==>
        r == Some(old(Remaining())[0]) && Remaining() == old(Remaining())[1..]
    {
      if i >= |counts| {
        return None;
      }
      var count := counts[i];
      ghost var before := SettledOrders(rest, counts[i..], amounts[amountOffset..]);
      assert before.counts[1..] == counts[i + 1..];
      i := i + 1;
      var orderPda, sellAccount, sellMint := rest[0], rest[1], rest[2];
      var destinations := rest[3..3 + count];
      rest := rest[3 + count..];
      var amountEnd := amountOffset + count;
      var orderAmounts := amounts[amountOffset..amountEnd];
      assert orderAmounts == before.amounts[..count];
      assert amounts[amountEnd..] == before.amounts[count..];
      amountOffset := amountEnd;
      return Some(SettledOrder(orderPda, sellAccount, sellMint, destinations, orderAmounts));
    }
  }

  method Drain<A>(cursor: OrderCursor<A>) returns (orders: seq<SettledOrder<A>>)
    requires cursor.Valid()
    modifies cursor
    ensures orders == old(cursor.Remaining())
  {
    ghost var left := cursor.Remaining();
    orders := [];
    var next := cursor.Next();
    while next.Some?
      invariant cursor.Valid()
      invariant next.Some? ==> left == [next.value] + cursor.Remaining()
      invariant next.None? ==> left == []
      invariant orders + left == old(cursor.Remaining())
      decreases |left|
    {
      assert left[0] == next.value && left[1..] == cursor.Remaining();
      orders, left := orders + [next.value], left[1..];
      next := cursor.Next();
    }
  }

  /** Draining the cursor yields every order, once, in order. */
  method CollectOrders<A>(o: SettledOrders<A>) returns (orders: seq<SettledOrder<A>>)
    requires Consistent(o)
    ensures orders == SplitOrders(o) && |orders| == |o.counts|
    ensures Flatten(AccountGroups(orders)) == o.accounts && Flatten(AmountGroups(orders)) == o.amounts
  {
    var cursor := new OrderCursor(o);
    orders := Drain(cursor);
    SplitCoversInput(o);
  }

  // ---------------------------------------------------------------------------------------
  // FinalizeSettle
  // ---------------------------------------------------------------------------------------

  const FINALIZE_FIXED_ACCOUNTS: nat := 4
  const FINALIZE_PUSH_ACCOUNTS: nat := 3

  datatype Push<A> = Push(source: A, destination: A, mint: A, bump: Byte, amount: U64)

  datatype FinalizeInput<A> = FinalizeInput(beginIx: nat, sysvar: A, statePda: A, pushes: seq<Push<A>>)

  /** `n` bump bytes followed by `n` little-endian amounts. */
  function SplitPushBytes(body: seq<Byte>): (r: Result<(seq<Byte>, seq<U64>)>)
    ensures r.Ok? ==> |r.value.0| == |r.value.1|
  {
    if |body| % 9 != 0 then Err(InvalidInstructionData) else
    var n := |body| / 9;
    Ok((body[..n], U64Chunks(body[n..])))
  }

  /** The variable part: bumps and amounts matched with `[source, destination, mint]` triples. */
  function ParsePushes<A>(body: seq<Byte>, accounts: seq<A>): (r: Result<seq<Push<A>>>)
  {
    var (bumps, amounts) :- SplitPushBytes(body);
    if |accounts| % FINALIZE_PUSH_ACCOUNTS != 0 || |accounts| / FINALIZE_PUSH_ACCOUNTS != |bumps|
    then Err(AccountCountNotMatchingPushCount) else
    Ok(seq(|bumps|, k requires 0 <= k < |bumps| =>
      Push(accounts[3 * k], accounts[3 * k + 1], accounts[3 * k + 2], bumps[k], amounts[k])))
  }

  function ParseFinalize<A>(data: seq<Byte>, accounts: seq<A>): (r: Result<FinalizeInput<A>>)
    ensures r.Ok? ==> r.value.beginIx < 0x1_0000
  {
    var (kind, rest) :- RecoverDiscriminator(data);
    if !kind.FinalizeSettle? then Err(InvalidInstructionData) else
    var (beginIx, body) :- RecoverCounterpart(rest);
    if |accounts| < FINALIZE_FIXED_ACCOUNTS then Err(NotEnoughAccountKeys) else
    var pushes :- ParsePushes(body, accounts[FINALIZE_FIXED_ACCOUNTS..]);
    Ok(FinalizeInput(beginIx, accounts[0], accounts[1], pushes))
  }

  /** Parsing a FinalizeSettle succeeds exactly on `n` bumps, `n` amounts and `n` triples of accounts,
      and push `k` is made of the `k`-th of each. */
  lemma ParseFinalizeExact<A>(data: seq<Byte>, accounts: seq<A>)
    ensures ParseFinalize(data, accounts).Ok? <==>
      |data| >= 3 && data[0] == 1 && (|data| - 3) % 9 == 0 && |accounts| == 4 + 3 * ((|data| - 3) / 9)
    ensures ParseFinalize(data, accounts).Ok? ==>
      var input, n := ParseFinalize(data, accounts).value, (|data| - 3) / 9;
      && input.beginIx == data[1] as int + 256 * (data[2] as int)
      && input.sysvar == accounts[0] && input.statePda == accounts[1] && |input.pushes| == n
      && forall k :: 0 <= k < n ==>
           input.pushes[k] == Push(accounts[4 + 3 * k], accounts[5 + 3 * k], accounts[6 + 3 * k], data[3 + k],
                                   U64OfBytes(data[3 + n + 8 * k..3 + n + 8 * k + 8]))
  {
    if |data| >= 3 {
      var body := data[1..][2..];
      assert body == data[3..];
      if |body| % 9 == 0 && |accounts| >= 4 {
        var n := |body| / 9;
        assert body[n..] == data[3 + n..];
        forall k | 0 <= k < n
          ensures body[n..][8 * k..8 * k + 8] == data[3 + n + 8 * k..3 + n + 8 * k + 8] && body[..n][k] == data[3 + k] {}
      }
    }
  }

  // ---------------------------------------------------------------------------------------
  // Introspection: the pushes BeginSettle validates
  // ---------------------------------------------------------------------------------------

  datatype PairedPush = PairedPush(source: Address, destination: Address, bump: Byte, amount: U64)

  /** The `(source, destination)` pairs found by stepping over the account metas, starting at
      the first destination. */
  function PushAccounts(keys: seq<Address>): (pairs: seq<(Address, Address)>)
  {
    var n := if |keys| <= FINALIZE_FIXED_ACCOUNTS + 1 then 0
             else (|keys| - FINALIZE_FIXED_ACCOUNTS + 1) / FINALIZE_PUSH_ACCOUNTS;
    seq(n, k requires 0 <= k < n =>
      (keys[FINALIZE_FIXED_ACCOUNTS + 3 * k], keys[FINALIZE_FIXED_ACCOUNTS + 3 * k + 1]))
  }

  /** Each push's bump and amount, recovered from the instruction data alone. */
  function FinalizePushData(data: seq<Byte>): (r: Result<(seq<Byte>, seq<U64>)>)
    ensures r.Ok? ==> |r.value.0| == |r.value.1|
  {
    var (_, rest) :- RecoverDiscriminator(data);
    var (_, body) :- RecoverCounterpart(rest);
    SplitPushBytes(body)
  }

  function IntrospectPushes(data: seq<Byte>, keys: seq<Address>): (r: Result<seq<PairedPush>>)
  {
    var (bumps, amounts) :- FinalizePushData(data);
    var pairs := PushAccounts(keys);
    var n := Min(|pairs|, |bumps|);
    Ok(seq(n, k requires 0 <= k < n => PairedPush(pairs[k].0, pairs[k].1, bumps[k], amounts[k])))
  }

  function Keys(metas: seq<Meta>): (keys: seq<Address>)
    ensures |keys| == |metas|
  {
    seq(|metas|, i requires 0 <= i < |metas| => metas[i].key)
  }

  function Paired(p: Push<Meta>): (q: PairedPush)
  {
    PairedPush(p.source.key, p.destination.key, p.bump, p.amount)
  }

  /** Whatever `FinalizeSettle` will execute is what `BeginSettle` saw: the two independent
      readings of one instruction agree in number, order and content. */
  lemma IntrospectionAgrees(data: seq<Byte>, metas: seq<Meta>)
    requires ParseFinalize(data, metas).Ok?
    ensures IntrospectPushes(data, Keys(metas)).Ok?
    ensures var seen := IntrospectPushes(data, Keys(metas)).value;
      var executed := ParseFinalize(data, metas).value.pushes;
      |seen| == |executed| && forall k :: 0 <= k < |seen| ==> seen[k] == Paired(executed[k])
  {
    var executed := ParseFinalize(data, metas).value.pushes;
    var pushAccounts := metas[FINALIZE_FIXED_ACCOUNTS..];
    assert |pushAccounts| == 3 * |executed|;
    assert |PushAccounts(Keys(metas))| == |executed|;
    forall k | 0 <= k < |executed|
      ensures PushAccounts(Keys(metas))[k] == (executed[k].source.key, executed[k].destination.key)
    {
      assert pushAccounts[3 * k] == metas[FINALIZE_FIXED_ACCOUNTS + 3 * k];
      assert pushAccounts[3 * k + 1] == metas[FINALIZE_FIXED_ACCOUNTS + 3 * k + 1];
    }
  }

  // ---------------------------------------------------------------------------------------
  // Mint slots
  // ---------------------------------------------------------------------------------------

  /** The mint named by a slot, or `None` when the slot holds the placeholder. */
  function MaybeMint(placeholder: Address, slot: Address): (r: Option<Address>)
  {
    if slot == placeholder then None else Some(slot)
  }
}
