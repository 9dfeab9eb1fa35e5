/** The client's settle builders: given the same orders in any two orders, the two instructions
    they build line up position by position and pass each other's pairing checks. */
module Client {
  import opened Basics
  import opened Intent
  import opened Sorting
  import opened KnownBuffers
  import opened SettleWire
  import opened SettleBuild
  import opened Worlds
  import opened Settle

  /** An order to settle, with the funds to pull from it. */
  datatype InitializedIntent = InitializedIntent(intent: OrderIntent, pulls: seq<Pull>, checked: bool)

  /** An order to pay, with the amount to push to it. */
  datatype FinalizedIntent = FinalizedIntent(intent: OrderIntent, amount: U64, checked: bool)

  /** The address searches the client runs: an order's address, a mint's buffer with its bump,
      the native buffer with its bump. */
  datatype Finder = Finder(
    order: OrderIntent -> Address,
    buffer: Address -> (Address, Byte),
    native: (Address, Byte),
    statePda: Address)

  // ---------------------------------------------------------------------------------------
  // The builders
  // ---------------------------------------------------------------------------------------

  /** The order addresses of a list of intents. */
  function KeysOf(finder: Finder, intents: seq<OrderIntent>): (keys: seq<Address>)
    ensures |keys| == |intents|
    ensures forall i :: 0 <= i < |intents| ==> keys[i] == finder.order(intents[i])
  {
    seq<Address>(|intents|, i requires 0 <= i < |intents| => finder.order(intents[i]))
  }

  function BeginIntents(orders: seq<InitializedIntent>): (intents: seq<OrderIntent>)
    ensures |intents| == |orders|
    ensures forall i :: 0 <= i < |orders| ==> intents[i] == orders[i].intent
  {
    seq(|orders|, i requires 0 <= i < |orders| => orders[i].intent)
  }

  function FinalIntents(orders: seq<FinalizedIntent>): (intents: seq<OrderIntent>)
    ensures |intents| == |orders|
    ensures forall i :: 0 <= i < |orders| ==> intents[i] == orders[i].intent
  {
    seq(|orders|, i requires 0 <= i < |orders| => orders[i].intent)
  }

  /** The positions of a list of intents, sorted by order address. */
  function SortedPositions(finder: Finder, intents: seq<OrderIntent>): (perm: seq<nat>)
    ensures |perm| == |intents|
    ensures forall k :: 0 <= k < |perm| ==> perm[k] < |intents|
  {
    SortIndices(KeysOf(finder, intents), |intents|)
  }

  function BeginOf(finder: Finder, solver: Address, finalizeIx: nat, auctionId: int, only: Option<TokenProgram>,
                   orders: seq<InitializedIntent>): (b: BeginBuilder)
  {
    var n := |orders|;
    BeginBuilder(finder.statePda, solver, finalizeIx, auctionId, only,
      KeysOf(finder, BeginIntents(orders)),
      seq(n, i requires 0 <= i < n => orders[i].intent.sell.account),
      seq(n, i requires 0 <= i < n => SellMint(orders[i])),
      seq(n, i requires 0 <= i < n => orders[i].pulls))
  }

  function SellMint(o: InitializedIntent): (m: Option<Address>)
  {
    if o.checked then Some(o.intent.sell.mint) else None
  }

  /** The begin builder as it runs: one push onto each of four vectors per order. */
  method BuildClientBegin(finder: Finder, solver: Address, finalizeIx: nat, auctionId: int,
                          only: Option<TokenProgram>, orders: seq<InitializedIntent>) returns (b: BeginBuilder)
    ensures b == BeginOf(finder, solver, finalizeIx, auctionId, only, orders)
  {
    var orderPdas, sellAccounts, sellMints, pulls := [], [], [], [];
    ghost var whole := BeginOf(finder, solver, finalizeIx, auctionId, only, orders);
    for i := 0 to |orders|
      invariant orderPdas == whole.orderPdas[..i] && sellAccounts == whole.sellAccounts[..i]
      invariant sellMints == whole.sellMints[..i] && pulls == whole.pulls[..i]
    {
      orderPdas := orderPdas + [finder.order(orders[i].intent)];
      sellAccounts := sellAccounts + [orders[i].intent.sell.account];
      sellMints := sellMints + [SellMint(orders[i])];
      pulls := pulls + [orders[i].pulls];
    }
    b := BeginBuilder(finder.statePda, solver, finalizeIx, auctionId, only, orderPdas, sellAccounts, sellMints, pulls);
  }

  /** The buffer an order is paid from. */
  function SourceOf(finder: Finder, intent: OrderIntent): (s: (Address, Byte))
  {
    match intent.buy
    case Native(_) => finder.native
    case Token(token) => finder.buffer(token.mint)
  }

  function PushMint(f: FinalizedIntent): (m: Option<Address>)
  {
    if f.intent.buy.Token? && f.checked then Some(f.intent.buy.token.mint) else None
  }

  /** The orders sorted by their address, then laid out as pushes. */
  function FinalizeOf(finder: Finder, beginIx: nat, only: Option<TokenProgram>, orders: seq<FinalizedIntent>)
    : (f: FinalizeBuilder)
  {
    var sorted := Gather(orders, SortedPositions(finder, FinalIntents(orders)));
    var n := |sorted|;
    FinalizeBuilder(finder.statePda, beginIx, only,
      seq(n, i requires 0 <= i < n => SourceOf(finder, sorted[i].intent).0),
      seq(n, i requires 0 <= i < n => BuyAccount(sorted[i].intent)),
      seq(n, i requires 0 <= i < n => PushMint(sorted[i])),
      seq(n, i requires 0 <= i < n => SourceOf(finder, sorted[i].intent).1),
      seq(n, i requires 0 <= i < n => sorted[i].amount))
  }

  // ---------------------------------------------------------------------------------------
  // Alignment
  // ---------------------------------------------------------------------------------------

  /** No two of the intents share an order address. */
  ghost predicate DistinctOrders(finder: Finder, intents: seq<OrderIntent>)
  {
    forall i, j :: 0 <= i < j < |intents| ==> KeysOf(finder, intents)[i] != KeysOf(finder, intents)[j]
  }

  /** Both lists name the same intents, in whatever order. */
  ghost predicate SameIntents(x: seq<OrderIntent>, y: seq<OrderIntent>)
  {
    forall intent :: intent in x <==> intent in y
  }

  lemma GatherMembers<T>(items: seq<T>, keys: seq<Address>, item: T)
    requires |items| == |keys|
    ensures item in Gather(items, SortIndices(keys, |keys|)) <==> item in items
  {
    var perm := SortIndices(keys, |keys|);
    var sorted := Gather(items, perm);
    if item in sorted {
      var k :| 0 <= k < |sorted| && sorted[k] == item;
      assert items[perm[k]] == item;
    }
    if item in items {
      var i :| 0 <= i < |items| && items[i] == item;
      SortCovers(keys, |keys|, i);
      var k :| 0 <= k < |perm| && perm[k] == i;
      assert sorted[k] == item;
    }
  }

  lemma KeyMembers(finder: Finder, intents: seq<OrderIntent>, a: Address)
    ensures a in KeysOf(finder, intents) <==> exists intent :: intent in intents && finder.order(intent) == a
  {
    var keys := KeysOf(finder, intents);
    if a in keys {
      var i :| 0 <= i < |keys| && keys[i] == a;
      assert intents[i] in intents && finder.order(intents[i]) == a;
    }
    if intent :| intent in intents && finder.order(intent) == a {
      var i :| 0 <= i < |intents| && intents[i] == intent;
      assert keys[i] == a;
    }
  }

  lemma SortedKeysAgree(finder: Finder, x: seq<OrderIntent>, y: seq<OrderIntent>)
    requires SameIntents(x, y) && DistinctOrders(finder, x) && DistinctOrders(finder, y)
    ensures Gather(KeysOf(finder, x), SortedPositions(finder, x)) == Gather(KeysOf(finder, y), SortedPositions(finder, y))
  {
    var kx, ky := KeysOf(finder, x), KeysOf(finder, y);
    var sx, sy := Gather(kx, SortedPositions(finder, x)), Gather(ky, SortedPositions(finder, y));
    DistinctSortStrictly(kx);
    DistinctSortStrictly(ky);
    forall a: Address ensures a in sx <==> a in sy {
      GatherMembers(kx, kx, a);
      GatherMembers(ky, ky, a);
      KeyMembers(finder, x, a);
      KeyMembers(finder, y, a);
    }
    SortedListsAgree(sx, sy);
  }

  /** Sorted by order address, two lists of the same intents are the same list. */
  lemma SortedIntentsAgree(finder: Finder, x: seq<OrderIntent>, y: seq<OrderIntent>)
    requires SameIntents(x, y) && DistinctOrders(finder, x) && DistinctOrders(finder, y)
    ensures |x| == |y|
    ensures forall k :: 0 <= k < |x| ==> x[SortedPositions(finder, x)[k]] == y[SortedPositions(finder, y)[k]]
  {
    SortedKeysAgree(finder, x, y);
    var kx, ky, px, py := KeysOf(finder, x), KeysOf(finder, y), SortedPositions(finder, x), SortedPositions(finder, y);
    assert |x| == |Gather(kx, px)| == |Gather(ky, py)| == |y|;
    forall k | 0 <= k < |x| ensures x[px[k]] == y[py[k]] {
      assert y[py[k]] in x;
      var i :| 0 <= i < |x| && x[i] == y[py[k]];
      assert kx[i] == ky[py[k]] == Gather(ky, py)[k] == Gather(kx, px)[k] == kx[px[k]];
    }
  }

  // ---------------------------------------------------------------------------------------
  // On chain
  // ---------------------------------------------------------------------------------------

  /** The client's searches agree with the deployment's accepted buffers. */
  ghost predicate FinderAgrees(env: Env, finder: Finder)
  {
    && finder.native.0 == env.nativeBuffer && finder.statePda == env.statePda
    && forall mint: Address :: mint != NATIVE_MARKER ==>
         IsBufferOf(env.buffers, finder.buffer(mint).0, mint, finder.buffer(mint).1)
  }

  lemma SourceAccepted(env: Env, finder: Finder, intent: OrderIntent)
    requires env.Sound() && FinderAgrees(env, finder) && Denotable(intent.buy)
    ensures var (source, bump) := SourceOf(finder, intent);
      ValidateBuffer(env.buffers, source, BuyMint(intent), bump).Ok?
  {
    var (source, bump) := SourceOf(finder, intent);
    ValidateBufferExact(env.buffers, source, BuyMint(intent), bump);
    if intent.buy.Native? {
      var known := env.buffers.known;
      var n :| 0 <= n < |known| && known[n] == KnownBuffer(NATIVE_MARKER, env.nativeBuffer);
      assert known[n].mint == BuyMint(intent);
    }
  }

  function BeginIxOf(ids: Ids, programId: Address, b: BeginBuilder): (ix: Ix)
    requires b.Parallel()
  {
    Ix(programId, BeginMetas(ids, b), BeginData(b))
  }

  function FinalizeIxOf(ids: Ids, programId: Address, f: FinalizeBuilder): (ix: Ix)
    requires f.Parallel()
  {
    Ix(programId, FinalizeMetas(ids, f), FinalizeData(f))
  }

  /** Built for each other's positions, the two instructions pass each other's reciprocity
      check. */
  lemma BuiltPairIsReciprocal(env: Env, ids: Ids, b: BeginBuilder, f: FinalizeBuilder, ixs: seq<Ix>, i: nat, j: nat)
    requires b.Parallel() && f.Parallel() && b.finalizeIx == j && f.beginIx == i
    requires i < |ixs| && j < |ixs|
    requires ixs[i] == BeginIxOf(ids, env.programId, b) && ixs[j] == FinalizeIxOf(ids, env.programId, f)
    ensures ValidateCounterpart(env, ixs, i, j, FinalizeSettle).Ok?
    ensures ValidateCounterpart(env, ixs, j, i, BeginSettle).Ok?
  {
    BeginPrefix(b);
    FinalizePrefix(f);
  }

  /** What the program reads back from a client-built pair at position `k`: the order's address,
      sell account, sell mint and pulls, and a push paying that order's buy account from its
      buffer. */
  ghost predicate Lined(finder: Finder, ids: Ids, o: SettledOrder<Meta>, p: PairedPush, begin: InitializedIntent, final: FinalizedIntent)
  {
    && begin.intent == final.intent
    && o.orderPda.key == finder.order(begin.intent)
    && o.sellAccount.key == begin.intent.sell.account
    && o.sellMint == ReadOnly(if begin.checked then begin.intent.sell.mint else ids.sysvar)
    && o.destinations == DestinationMetas(begin.pulls) && o.amounts == PullAmounts(begin.pulls)
    && p == PairedPush(SourceOf(finder, final.intent).0, BuyAccount(final.intent),
                       SourceOf(finder, final.intent).1, final.amount)
  }

  /** The orders read back are the initialized intents, sorted strictly by address. */
  ghost predicate BeginReads(finder: Finder, ids: Ids, orders: seq<SettledOrder<Meta>>, begins: seq<InitializedIntent>)
  {
    var perm := SortedPositions(finder, BeginIntents(begins));
    && |orders| == |begins|
    && (forall k :: 0 <= k < |begins| ==>
          var begin := begins[perm[k]];
          && orders[k].orderPda.key == finder.order(begin.intent)
          && orders[k].sellAccount.key == begin.intent.sell.account
          && orders[k].sellMint == ReadOnly(if begin.checked then begin.intent.sell.mint else ids.sysvar)
          && orders[k].destinations == DestinationMetas(begin.pulls)
          && orders[k].amounts == PullAmounts(begin.pulls))
    && (forall k, l :: 0 <= k < l < |orders| ==> Less(orders[k].orderPda.key, orders[l].orderPda.key))
  }

  lemma ClientBeginReads(finder: Finder, ids: Ids, b: BeginBuilder, begins: seq<InitializedIntent>)
    requires b == BeginOf(finder, b.solver, b.finalizeIx, b.auctionId, b.only, begins) && b.Parallel()
    requires DistinctOrders(finder, BeginIntents(begins))
    requires |begins| <= 255 && forall k :: 0 <= k < |begins| ==> |begins[k].pulls| <= 255
    ensures ParseBegin(BeginData(b), BeginMetas(ids, b)).Ok?
    ensures BeginReads(finder, ids, SplitOrders(ParseBegin(BeginData(b), BeginMetas(ids, b)).value.orders), begins)
  {
    BeginRoundTrip(ids, b);
    BeginStrictlyIncreasing(ids, b);
  }

  /** The pushes seen are the finalized intents' pushes, in address order. */
  ghost predicate FinalReads(finder: Finder, seen: seq<PairedPush>, finals: seq<FinalizedIntent>)
  {
    var perm := SortedPositions(finder, FinalIntents(finals));
    && |seen| == |finals|
    && forall k :: 0 <= k < |finals| ==>
         var final := finals[perm[k]];
         seen[k] == PairedPush(SourceOf(finder, final.intent).0, BuyAccount(final.intent),
                               SourceOf(finder, final.intent).1, final.amount)
  }

  lemma ClientFinalizeReads(finder: Finder, ids: Ids, f: FinalizeBuilder, finals: seq<FinalizedIntent>)
    requires f == FinalizeOf(finder, f.beginIx, f.only, finals) && f.Parallel()
    ensures IntrospectPushes(FinalizeData(f), Keys(FinalizeMetas(ids, f))).Ok?
    ensures FinalReads(finder, IntrospectPushes(FinalizeData(f), Keys(FinalizeMetas(ids, f))).value, finals)
  {
    FinalizeRoundTrip(ids, f);
    IntrospectionAgrees(FinalizeData(f), FinalizeMetas(ids, f));
  }

  /** FinalizeSettle reads every push with its order's buy mint where the transfer is to be checked; native
      SOL has none to check. */
  lemma ClientFinalizeMints(finder: Finder, ids: Ids, f: FinalizeBuilder, finals: seq<FinalizedIntent>)
    requires f == FinalizeOf(finder, f.beginIx, f.only, finals) && f.Parallel()
    ensures ParseFinalize(FinalizeData(f), FinalizeMetas(ids, f)).Ok?
    ensures var pushes := ParseFinalize(FinalizeData(f), FinalizeMetas(ids, f)).value.pushes;
      && |pushes| == |finals|
      && forall k :: 0 <= k < |finals| ==>
           var final := finals[SortedPositions(finder, FinalIntents(finals))[k]];
           pushes[k].mint.key == match final.intent.buy
             case Native(_) => ids.sysvar
             case Token(token) => if final.checked then token.mint else ids.sysvar
  {
    FinalizeRoundTrip(ids, f);
  }

  /** What the program reads back from a client-built pair: as many pushes as orders, addresses
      strictly increasing, and at each position the push of that very order. */
  ghost predicate LinesUp(finder: Finder, ids: Ids, orders: seq<SettledOrder<Meta>>, seen: seq<PairedPush>,
                          begins: seq<InitializedIntent>, finals: seq<FinalizedIntent>)
  {
    var pb, pf := SortedPositions(finder, BeginIntents(begins)), SortedPositions(finder, FinalIntents(finals));
    && |orders| == |seen| == |begins| == |finals|
    && (forall k :: 0 <= k < |orders| ==> Lined(finder, ids, orders[k], seen[k], begins[pb[k]], finals[pf[k]]))
    && (forall k, l :: 0 <= k < l < |orders| ==> Less(orders[k].orderPda.key, orders[l].orderPda.key))
  }

  lemma ReadsLineUp(finder: Finder, ids: Ids, orders: seq<SettledOrder<Meta>>, seen: seq<PairedPush>,
                    begins: seq<InitializedIntent>, finals: seq<FinalizedIntent>)
    requires BeginReads(finder, ids, orders, begins) && FinalReads(finder, seen, finals)
    requires SameIntents(BeginIntents(begins), FinalIntents(finals))
    requires DistinctOrders(finder, BeginIntents(begins)) && DistinctOrders(finder, FinalIntents(finals))
    ensures LinesUp(finder, ids, orders, seen, begins, finals)
  {
    SortedIntentsAgree(finder, BeginIntents(begins), FinalIntents(finals));
  }

  /** For any orders with distinct addresses, in any caller order on either side, the two built
      instructions line up. */
  lemma ClientPairLinesUp(finder: Finder, ids: Ids, b: BeginBuilder, f: FinalizeBuilder,
                          begins: seq<InitializedIntent>, finals: seq<FinalizedIntent>)
    requires b == BeginOf(finder, b.solver, b.finalizeIx, b.auctionId, b.only, begins) && b.Parallel()
    requires f == FinalizeOf(finder, f.beginIx, f.only, finals) && f.Parallel()
    requires SameIntents(BeginIntents(begins), FinalIntents(finals))
    requires DistinctOrders(finder, BeginIntents(begins)) && DistinctOrders(finder, FinalIntents(finals))
    requires |begins| <= 255 && forall k :: 0 <= k < |begins| ==> |begins[k].pulls| <= 255
    ensures ParseBegin(BeginData(b), BeginMetas(ids, b)).Ok?
    ensures IntrospectPushes(FinalizeData(f), Keys(FinalizeMetas(ids, f))).Ok?
    ensures LinesUp(finder, ids, SplitOrders(ParseBegin(BeginData(b), BeginMetas(ids, b)).value.orders),
                    IntrospectPushes(FinalizeData(f), Keys(FinalizeMetas(ids, f))).value, begins, finals)
  {
    ClientBeginReads(finder, ids, b, begins);
    ClientFinalizeReads(finder, ids, f, finals);
    ReadsLineUp(finder, ids, SplitOrders(ParseBegin(BeginData(b), BeginMetas(ids, b)).value.orders),
                IntrospectPushes(FinalizeData(f), Keys(FinalizeMetas(ids, f))).value, begins, finals);
  }

  /** The pushes a begin at `i` sees in a finalize built for it at `j`, when no other settle
      instruction lies between them. */
  lemma BuiltPairIsSeen(env: Env, ids: Ids, b: BeginBuilder, f: FinalizeBuilder, ixs: seq<Ix>, i: nat, j: nat)
    requires b.Parallel() && f.Parallel() && b.finalizeIx == j && f.beginIx == i
    requires i < j < |ixs| && forall k :: i < k < j ==> !IsSettleIx(env, ixs[k])
    requires ixs[i] == BeginIxOf(ids, env.programId, b) && ixs[j] == FinalizeIxOf(ids, env.programId, f)
    ensures PairedPushes(env, ixs, i, j) == IntrospectPushes(FinalizeData(f), Keys(FinalizeMetas(ids, f)))
  {
    BuiltPairIsReciprocal(env, ids, b, f, ixs, i, j);
  }

  /** Every push the client builds draws on an accepted buffer of its order's buy mint. */
  lemma SourcesAccepted(env: Env, finder: Finder, seen: seq<PairedPush>, finals: seq<FinalizedIntent>)
    requires env.Sound() && FinderAgrees(env, finder) && FinalReads(finder, seen, finals)
    requires forall k :: 0 <= k < |finals| ==> Denotable(finals[k].intent.buy)
    ensures var pf := SortedPositions(finder, FinalIntents(finals));
      forall k :: 0 <= k < |seen| ==>
        ValidateBuffer(env.buffers, seen[k].source, BuyMint(finals[pf[k]].intent), seen[k].bump).Ok?
  {
    var pf := SortedPositions(finder, FinalIntents(finals));
    forall k | 0 <= k < |seen|
      ensures ValidateBuffer(env.buffers, seen[k].source, BuyMint(finals[pf[k]].intent), seen[k].bump).Ok?
    {
      SourceAccepted(env, finder, finals[pf[k]].intent);
    }
  }

  /** Placed at the positions they link to, with no other settle instruction between them, the
      pair passes every pairing check of BeginSettle, and each push's source is accepted. */
  lemma ClientPairPassesChecks(env: Env, finder: Finder, ids: Ids, b: BeginBuilder, f: FinalizeBuilder,
                               begins: seq<InitializedIntent>, finals: seq<FinalizedIntent>,
                               ixs: seq<Ix>, i: nat, j: nat)
    requires env.Sound() && FinderAgrees(env, finder)
    requires b == BeginOf(finder, b.solver, j, b.auctionId, b.only, begins) && b.Parallel()
    requires f == FinalizeOf(finder, i, f.only, finals) && f.Parallel()
    requires SameIntents(BeginIntents(begins), FinalIntents(finals))
    requires DistinctOrders(finder, BeginIntents(begins)) && DistinctOrders(finder, FinalIntents(finals))
    requires |begins| <= 255 && forall k :: 0 <= k < |begins| ==> |begins[k].pulls| <= 255
    requires forall k :: 0 <= k < |finals| ==> Denotable(finals[k].intent.buy)
    requires i < j < |ixs| && forall k :: i < k < j ==> !IsSettleIx(env, ixs[k])
    requires ixs[i] == BeginIxOf(ids, env.programId, b) && ixs[j] == FinalizeIxOf(ids, env.programId, f)
    ensures ValidateCounterpart(env, ixs, j, i, BeginSettle).Ok?
    ensures PairedPushes(env, ixs, i, j).Ok? && ParseBegin(ixs[i].data, ixs[i].metas).Ok?
    ensures LinesUp(finder, ids, SplitOrders(ParseBegin(ixs[i].data, ixs[i].metas).value.orders),
                    PairedPushes(env, ixs, i, j).value, begins, finals)
    ensures var seen, pf := PairedPushes(env, ixs, i, j).value, SortedPositions(finder, FinalIntents(finals));
      |seen| == |finals| && forall k :: 0 <= k < |seen| ==>
        ValidateBuffer(env.buffers, seen[k].source, BuyMint(finals[pf[k]].intent), seen[k].bump).Ok?
  {
    BuiltPairIsReciprocal(env, ids, b, f, ixs, i, j);
    BuiltPairIsSeen(env, ids, b, f, ixs, i, j);
    ClientFinalizeReads(finder, ids, f, finals);
    var seen := IntrospectPushes(FinalizeData(f), Keys(FinalizeMetas(ids, f))).value;
    SourcesAccepted(env, finder, seen, finals);
    ClientPairLinesUp(finder, ids, b, f, begins, finals);
  }
}
