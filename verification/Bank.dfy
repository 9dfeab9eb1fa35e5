/** The program as it runs: handlers that update accounts step by step, and the transaction
    runner that rolls back on failure. Each is proved against its specification function. */
module Banks {
  import opened Basics
  import opened Intent
  import opened OrderAccounts
  import opened Fills
  import opened KnownBuffers
  import opened SettleWire
  import opened Ledger
  import opened Worlds
  import opened Settle
  import opened Transactions
  import opened OrderHandlers
  import opened AdminHandlers
  import opened BufferHandlers
  import SA = StateAccounts

  /** `r` reports what the specification says, and on success the accounts are as specified. */
  ghost predicate Matches(r: Result<()>, spec: Result<Outcome>, w: World)
  {
    match spec
    case Ok(outcome) => r.Ok? && w == outcome.world
    case Err(e) => r == Err(e)
  }

  /** Two specifications with the same error or the same final world. */
  ghost predicate SameEnd(x: Result<Outcome>, y: Result<Outcome>)
  {
    if x.Ok? then y.Ok? && x.value.world == y.value.world else x == y
  }

  /** The no-nesting scan as a loop. */
  method ScanForNesting(env: Env, ixs: seq<Ix>, current: nat, finalize: nat) returns (r: Result<()>)
    requires finalize < |ixs|
    ensures r == ValidateNoNesting(env, ixs, current, finalize)
    ensures r.Ok? <==> current < finalize && forall k :: current < k < finalize ==> !IsSettleIx(env, ixs[k])
  {
    if finalize <= current {
      return Err(FinalizeBeforeInitialize);
    }
    var i := current + 1;
    while i < finalize
      invariant current < i <= finalize
      invariant ScanBetween(env, ixs, current + 1, finalize) == ScanBetween(env, ixs, i, finalize)
    {
      if ixs[i].programId == env.programId {
        var kind := RecoverDiscriminator(ixs[i].data);
        if kind.Ok? && (kind.value.0 == BeginSettle || kind.value.0 == FinalizeSettle) {
          return Err(BeginFinalizePairOverlap);
        }
      }
      i := i + 1;
    }
    return Ok(());
  }

  /** The accounts the program owns, as raw bytes, beside the ledgers of the token and system
      programs. */
  class Bank {
    const env: Env
    var orders: map<Address, seq<Byte>>
    var state: seq<Byte>
    var tokens: Tokens
    var mints: map<Address, Mint>
    var lamports: Lamports

    /** What the stored order accounts stand for. */
    ghost var book: map<Address, OrderBody>

    ghost predicate Valid()
      reads this
    {
      |env.buffers.known| < 255 && Stored(orders, book)
    }

    /** The world the accounts stand for. */
    ghost function View(): (w: World)
      reads this
    {
      World(book, state, tokens, mints, lamports)
    }

    constructor (env: Env, orders: map<Address, seq<Byte>>, state: seq<Byte>, tokens: Tokens,
                 mints: map<Address, Mint>, lamports: Lamports, ghost book: map<Address, OrderBody>)
      requires |env.buffers.known| < 255 && Stored(orders, book)
      ensures this.env == env && Valid() && View() == World(book, state, tokens, mints, lamports)
    {
      this.env := env;
      this.orders, this.book, this.state := orders, book, state;
      this.tokens, this.mints, this.lamports := tokens, mints, lamports;
    }

    predicate Owns(a: Address)
      reads this
    {
      a in orders || a == env.statePda || a == env.nativeBuffer
    }

    // -------------------------------------------------------------------------------------
    // Order accounts, through the in-place accessor
    // -------------------------------------------------------------------------------------

    /** The accessor over the stored account at `a`. */
    method Open(a: Address) returns (account: OrderAccount)
      requires Valid() && a in orders
      ensures fresh(account) && fresh(account.data) && account.Holds(book[a])
    {
      var stored := orders[a];
      var bytes := new Byte[|stored|](i requires 0 <= i < |stored| => stored[i]);
      assert bytes[..] == stored;
      var attached := OrderAccount.Attach(bytes);
      account := attached.value;
    }

    /** Open the account at `a` and confirm that it lives at its own derivation. */
    method Load(a: Address) returns (r: Result<OrderAccount>)
      requires Valid()
      ensures match LoadOrder(env, View(), a)
        case Ok(b) => r.Ok? && fresh(r.value) && fresh(r.value.data) && r.value.Holds(b)
        case Err(e) => r == Err(e)
    {
      if a !in orders {
        return Err(InvalidAccountData);
      }
      var account := Open(a);
      if env.orderAddress(account.ReadIntent().value, account.Bump()) != Some(a) {
        return Err(AccountNotDerivable);
      }
      return Ok(account);
    }

    /** Write an account's bytes back. */
    method Store(a: Address, account: OrderAccount, ghost b: OrderBody)
      requires Valid() && account.Holds(b)
      modifies this`orders, this`book
      ensures Valid() && View() == old(View()).(orders := old(View()).orders[a := b])
    {
      StoredOrder(orders, book, a, account.data[..], b);
      orders, book := orders[a := account.data[..]], book[a := b];
    }

    // -------------------------------------------------------------------------------------
    // The system program's transfers and the program's own
    // -------------------------------------------------------------------------------------

    /** Bring `to` up to `minimum` by a system transfer of what is missing. */
    method Fund(payer: Meta, to: Address, minimum: nat) returns (r: Result<()>)
      requires Valid()
      modifies this`lamports
      ensures match TopUp(env, old(View()), payer, to, minimum)
        case Ok(l) => r.Ok? && lamports == l
        case Err(e) => r == Err(e)
    {
      var held := Get(lamports, to);
      if held >= minimum {
        return Ok(());
      }
      if !payer.signer || Owns(payer.key) || payer.key == to {
        return Err(SystemProgramFailure);
      }
      var moved := Move(payer.key, to, minimum - held);
      if moved.Err? {
        return Err(SystemProgramFailure);
      }
      return Ok(());
    }

    /** Debit one account and credit the other, both checked. */
    method Move(from: Address, to: Address, amount: nat) returns (r: Result<()>)
      modifies this`lamports
      ensures match MoveLamports(old(lamports), from, to, amount)
        case Ok(l) => r.Ok? && lamports == l
        case Err(e) => r == Err(e) && lamports == old(lamports)
    {
      if from == to {
        return Ok(());
      }
      if Get(lamports, from) < amount || Get(lamports, to) + amount > U64_MAX {
        return Err(ArithmeticOverflow);
      }
      lamports := lamports[from := Get(lamports, from) - amount];
      lamports := lamports[to := Get(lamports, to) + amount];
      return Ok(());
    }

    // -------------------------------------------------------------------------------------
    // BeginSettle
    // -------------------------------------------------------------------------------------

    /** Pull one order's funds, transfer by transfer. */
    method PullFunds(o: SettledOrder<Meta>) returns (r: Result<U64>)
      requires Valid() && o.sellAccount.key in tokens
      modifies this`tokens
      ensures match PullOrder(env, old(View()), o)
        case Ok(pulled) => r == Ok(pulled.1) && tokens == pulled.0
        case Err(e) => r == Err(e)
    {
      var program := tokens[o.sellAccount.key].program;
      var mint := ReadMint(mints, program, MaybeMint(env.sysvar, o.sellMint.key));
      if mint.Err? {
        return Err(mint.error);
      }
      ghost var spec := PullOrder(env, old(View()), o);
      var amountIn: U64 := 0;
      var k := 0;
      while k < |o.destinations| && k < |o.amounts|
        invariant k <= |o.destinations| && k <= |o.amounts|
        invariant spec == PullAll(tokens, program, o.sellAccount.key, mint.value, env.statePda,
                                  o.destinations[k..], o.amounts[k..], amountIn)
      {
        assert o.amounts[k..][0] == o.amounts[k] && o.amounts[k..][1..] == o.amounts[k + 1..];
        assert o.destinations[k..][0] == o.destinations[k] && o.destinations[k..][1..] == o.destinations[k + 1..];
        if amountIn + o.amounts[k] > U64_MAX {
          return Err(PullAmountOverflow);
        }
        var moved := Transfer(tokens, program, o.sellAccount.key, o.destinations[k].key, mint.value,
                              env.statePda, o.amounts[k]);
        if moved.Err? {
          return Err(moved.error);
        }
        amountIn := amountIn + o.amounts[k];
        tokens := moved.value;
        k := k + 1;
      }
      return Ok(amountIn);
    }

    /** Everything checked about an order before its funds move. */
    method Check(now: int, o: SettledOrder<Meta>, push: PairedPush) returns (r: Result<OrderAccount>)
      requires Valid()
      ensures match CheckOrder(env, now, View(), o, push)
        case Ok(b) => r.Ok? && fresh(r.value) && fresh(r.value.data) && r.value.Holds(b)
        case Err(e) => r == Err(e)
    {
      r := Load(o.orderPda.key);
      if r.Err? {
        return;
      }
      ghost var b := book[o.orderPda.key];
      assert r.value.Holds(b);
      if r.value.Cancelled().value {
        return Err(OrderCancelled);
      }
      var intent := r.value.ReadIntent().value;
      if now > intent.validTo {
        return Err(OrderExpired);
      }
      if push.destination != BuyAccount(intent) {
        return Err(PushDestinationMismatch);
      }
      var source := ValidateBuffer(env.buffers, push.source, BuyMint(intent), push.bump);
      if source.Err? {
        return Err(source.error);
      }
      if push.source == push.destination {
        return Err(PushSourceIsDestination);
      }
      if o.sellAccount.key != intent.sell.account {
        return Err(SellTokenAccountMismatch);
      }
      if o.sellAccount.key !in tokens {
        return Err(SellTokenAccountInvalid);
      }
      if tokens[o.sellAccount.key].owner != intent.owner {
        return Err(SellTokenOwnerMismatch);
      }
      if tokens[o.sellAccount.key].mint != intent.sell.mint {
        return Err(SellMintMismatch);
      }
    }

    /** Check the price, fold the settlement into the totals and write them into the account. */
    method Settle(account: OrderAccount, ghost b: OrderBody, amountIn: U64, amountOut: U64) returns (r: Result<()>)
      requires account.Holds(b)
      modifies account.data
      ensures match Fill(b, amountIn, amountOut)
        case Ok(b') => r.Ok? && account.Holds(b')
        case Err(e) => r == Err(e)
    {
      var intent := account.ReadIntent().value;
      var (withdrawn, received) := account.FilledAmounts();
      var price := ValidateLimitPrice(intent, amountIn, amountOut);
      if price.Err? {
        return Err(price.error);
      }
      var totals := FinalAmounts(intent, withdrawn, received, amountIn, amountOut);
      if totals.Err? {
        return Err(totals.error);
      }
      account.SetAmounts(totals.value.0, totals.value.1);
      return Ok(());
    }

    /** Settle the account and store its bytes. */
    method WriteBack(a: Address, account: OrderAccount, ghost b: OrderBody, amountIn: U64, amountOut: U64)
      returns (r: Result<()>)
      requires Valid() && account.Holds(b)
      modifies account.data, this`orders, this`book
      ensures Valid() && match Fill(b, amountIn, amountOut)
        case Ok(b') => r.Ok? && View() == old(View()).(orders := old(book)[a := b'])
        case Err(e) => r == Err(e)
    {
      r := Settle(account, b, amountIn, amountOut);
      if r.Ok? {
        Store(a, account, Fill(b, amountIn, amountOut).value);
      }
    }

    /** Pull an order's funds and write its totals back into its account. */
    method Finish(account: OrderAccount, ghost b: OrderBody, o: SettledOrder<Meta>, push: PairedPush)
      returns (r: Result<()>)
      requires Valid() && account.Holds(b) && o.sellAccount.key in tokens
      modifies account.data, this`tokens, this`orders, this`book
      ensures Valid() && Matches(r, FinishOrder(env, old(View()), b, o, push), View())
    {
      var amountIn := PullFunds(o);
      if amountIn.Err? {
        return Err(amountIn.error);
      }
      r := WriteBack(o.orderPda.key, account, b, amountIn.value, push.amount);
    }

    /** Validate one order, then settle it. */
    method DoOrder(now: int, o: SettledOrder<Meta>, push: PairedPush) returns (r: Result<()>)
      requires Valid()
      modifies this`tokens, this`orders, this`book
      ensures Valid() && Matches(r, ProcessOrder(env, now, old(View()), o, push), View())
    {
      var account := Check(now, o, push);
      if account.Err? {
        return Err(account.error);
      }
      r := Finish(account.value, book[o.orderPda.key], o, push);
    }

    /** The next order of a batch: above the previous one, with a push of its own. */
    method NextOrder(now: int, previous: Option<Address>, o: SettledOrder<Meta>, push: Option<PairedPush>,
                     ghost left: seq<SettledOrder<Meta>>, ghost pushes: seq<PairedPush>) returns (r: Result<()>)
      requires Valid() && left != [] && left[0] == o
      requires if pushes == [] then push == None else push == Some(pushes[0])
      modifies this`tokens, this`orders, this`book
      ensures Valid()
      ensures r.Ok? ==> pushes != [] && SameEnd(SettleOrders(env, now, old(View()), left, pushes, previous),
                                 SettleOrders(env, now, View(), left[1..], pushes[1..], Some(o.orderPda.key)))
      ensures r.Err? ==> SettleOrders(env, now, old(View()), left, pushes, previous) == Err(r.error)
    {
      if previous.Some? && !Less(previous.value, o.orderPda.key) {
        return Err(OrdersNotStrictlyIncreasing);
      }
      if push.None? {
        return Err(SettledOrderPushCountMismatch);
      }
      r := DoOrder(now, o, push.value);
    }

    /** Walk the orders and the pushes together. */
    method DoOrders(now: int, settled: SettledOrders<Meta>, pushes: seq<PairedPush>) returns (r: Result<()>)
      requires Valid() && Consistent(settled)
      modifies this`tokens, this`orders, this`book
      ensures Valid() && Matches(r, SettleOrders(env, now, old(View()), SplitOrders(settled), pushes, None), View())
    {
      ghost var spec := SettleOrders(env, now, View(), SplitOrders(settled), pushes, None);
      var previous: Option<Address> := None;
      var cursor := new OrderCursor(settled);
      ghost var left := SplitOrders(settled);
      var next := cursor.Next();
      var k := 0;
      ghost var due := pushes;
      while next.Some?
        invariant Valid() && cursor.Valid() && fresh(cursor) && k <= |pushes| && due == pushes[k..]
        invariant next.Some? ==> left == [next.value] + cursor.Remaining()
        invariant next.None? ==> left == []
        invariant SameEnd(spec, SettleOrders(env, now, View(), left, due, previous))
        decreases |left|
      {
        assert left[0] == next.value && left[1..] == cursor.Remaining();
        var push := if k < |pushes| then Some(pushes[k]) else None;
        var done := NextOrder(now, previous, next.value, push, left, due);
        if done.Err? {
          return Err(done.error);
        }
        previous := Some(next.value.orderPda.key);
        k, left, due := k + 1, left[1..], due[1..];
        next := cursor.Next();
      }
      if k < |pushes| {
        return Err(SettledOrderPushCountMismatch);
      }
      return Ok(());
    }

    /** The solver signs and is on the stored list. */
    method CheckSolver(statePda: Address, solver: Meta) returns (r: Result<()>)
      requires Valid()
      ensures r == RequireSolver(env, View(), statePda, solver)
    {
      if statePda != env.statePda {
        return Err(StateAccountMismatch);
      }
      if !SA.Attachable(state) {
        return Err(InvalidAccountData);
      }
      var account := new SA.StateAccount.Attach(state);
      var listed := account.HoldsSolver(solver.key);
      if !solver.signer || !listed {
        return Err(UnauthorizedSolver);
      }
      return Ok(());
    }

    method BeginSettleIx(now: int, cpi: bool, ixs: seq<Ix>, i: nat, ix: Ix) returns (r: Result<()>)
      requires Valid()
      modifies this
      ensures Valid() && Matches(r, ProcessBegin(env, now, cpi, ixs, i, ix, old(View())), View())
    {
      if cpi {
        return Err(CalledViaCpi);
      }
      var input := ParseBegin(ix.data, ix.metas);
      if input.Err? {
        return Err(input.error);
      }
      var solver := CheckSolver(input.value.statePda.key, input.value.solver);
      if solver.Err? {
        return Err(solver.error);
      }
      if input.value.sysvar.key != env.sysvar {
        return Err(UnsupportedSysvar);
      }
      var f := input.value.finalizeIx;
      var counterpart := ValidateCounterpart(env, ixs, i, f, FinalizeSettle);
      if counterpart.Err? {
        return Err(counterpart.error);
      }
      var scan := ScanForNesting(env, ixs, i, f);
      if scan.Err? {
        return Err(scan.error);
      }
      var pushes := IntrospectPushes(ixs[f].data, Keys(ixs[f].metas));
      if pushes.Err? {
        return Err(pushes.error);
      }
      r := DoOrders(now, input.value.orders, pushes.value);
    }

    // -------------------------------------------------------------------------------------
    // FinalizeSettle
    // -------------------------------------------------------------------------------------

    /** First every token push, then every native one; a paying native buffer may not end empty. */
    method PayOut(pushes: seq<Push<Meta>>) returns (r: Result<()>)
      requires Valid()
      modifies this`tokens, this`lamports
      ensures match PushFunds(PayContextOf(env, old(View())), Funds(old(tokens), old(lamports)), pushes)
        case Ok(f) => r.Ok? && tokens == f.tokens && lamports == f.lamports
        case Err(e) => r == Err(e)
    {
      var ctx := PayContext(env.nativeBuffer, env.statePda, env.sysvar, mints);
      var k := 0;
      while k < |pushes|
        invariant k <= |pushes| && lamports == old(lamports)
        invariant TokenPass(ctx, old(tokens), pushes) == TokenPass(ctx, tokens, pushes[k..])
      {
        assert pushes[k..][0] == pushes[k] && pushes[k..][1..] == pushes[k + 1..];
        if pushes[k].source.key != env.nativeBuffer {
          var paid := PayToken(ctx, tokens, pushes[k]);
          if paid.Err? {
            return Err(paid.error);
          }
          tokens := paid.value;
        }
        k := k + 1;
      }
      var native := false;
      k := 0;
      while k < |pushes|
        invariant k <= |pushes| && TokenPass(ctx, old(tokens), pushes) == Ok(tokens)
        invariant NativePass(ctx, old(lamports), pushes) == NativePass(ctx, lamports, pushes[k..])
        invariant native <==> exists j :: 0 <= j < k && IsNative(ctx, pushes[j])
      {
        assert pushes[k..][0] == pushes[k] && pushes[k..][1..] == pushes[k + 1..];
        if pushes[k].source.key == env.nativeBuffer {
          var paid := Move(pushes[k].source.key, pushes[k].destination.key, pushes[k].amount);
          if paid.Err? {
            return Err(paid.error);
          }
          native := true;
        }
        k := k + 1;
      }
      if native && Get(lamports, env.nativeBuffer) == 0 {
        return Err(NativeSolBufferEmptied);
      }
      return Ok(());
    }

    method FinalizeSettleIx(cpi: bool, ixs: seq<Ix>, i: nat, ix: Ix) returns (r: Result<()>)
      requires Valid()
      modifies this
      ensures Valid() && Matches(r, ProcessFinalize(env, cpi, ixs, i, ix, old(View())), View())
    {
      if cpi {
        return Err(CalledViaCpi);
      }
      var input := ParseFinalize(ix.data, ix.metas);
      if input.Err? {
        return Err(input.error);
      }
      if input.value.sysvar.key != env.sysvar {
        return Err(UnsupportedSysvar);
      }
      var counterpart := ValidateCounterpart(env, ixs, i, input.value.beginIx, BeginSettle);
      if counterpart.Err? {
        return Err(counterpart.error);
      }
      if input.value.statePda.key != env.statePda {
        return Err(StateAccountMismatch);
      }
      r := PayOut(input.value.pushes);
    }

    // -------------------------------------------------------------------------------------
    // Orders
    // -------------------------------------------------------------------------------------

    /** Create the canonical account, funding its rent, and stamp the initial body. */
    method CreateAt(pda: Address, intentBytes: seq<Byte>, expectedOwner: Address, createdBy: Meta,
                    cancelled: bool, ghost signers: set<Address>) returns (r: Result<()>)
      requires Valid() && |intentBytes| == INTENT_SIZE
      modifies this`orders, this`book, this`lamports
      ensures Valid() && Matches(r, NewOrder(env, old(View()), pda, intentBytes, expectedOwner, createdBy, cancelled, signers), View())
    {
      var check := CheckBytes(intentBytes);
      if check.Err? {
        return Err(check.error);
      }
      CheckAgreesWithDecode(intentBytes);
      var intent := DecodeIntent(intentBytes).value;
      if expectedOwner != intent.owner {
        return Err(OwnerMismatch);
      }
      var found := FindOrder(env, intent);
      if found.None? {
        return Err(AccountNotDerivable);
      }
      var (canonical, bump) := found.value;
      if pda != canonical {
        return Err(SystemProgramFailure);
      }
      if Owns(pda) {
        return Err(AccountAlreadyInitialized);
      }
      var funded := Fund(createdBy, pda, env.rent(ORDER_SIZE));
      if funded.Err? {
        return Err(funded.error);
      }
      var bytes := new Byte[ORDER_SIZE](_ => 0);
      var account := OrderAccount.Initialize(bytes, bump, cancelled, 0, 0, createdBy.key, intent);
      ghost var b := OrderBody(bump, cancelled, 0, 0, createdBy.key, intent);
      OrderRoundTrip(b);
      Store(pda, account.value, b);
      return Ok(());
    }

    /** The settlement's own orders answer to the holder of that role. */
    method CheckAuthority(signer: Address, statePda: Option<Meta>) returns (r: Result<()>)
      requires Valid()
      ensures r == CheckOrderAuthority(env, View(), signer, statePda)
    {
      if statePda.None? {
        return Err(NotEnoughAccountKeys);
      }
      if statePda.value.key != env.statePda {
        return Err(StateAccountMismatch);
      }
      if !SA.Attachable(state) {
        return Err(InvalidAccountData);
      }
      var account := new SA.StateAccount.Attach(state);
      var holder := account.HolderOf(SA.SettlementOwnedOrderAuthority);
      if signer != holder {
        return Err(UnauthorizedSettlementOwnedOrder);
      }
      return Ok(());
    }

    /** An order answers to its owner, the settlement's own ones to the role's holder. */
    method CheckCanceller(signer: Address, owner: Address, statePda: Option<Meta>) returns (r: Result<()>)
      requires Valid()
      ensures r == if owner == env.statePda then CheckOrderAuthority(env, View(), signer, statePda)
                   else if signer != owner then Err(OwnerMismatch) else Ok(())
    {
      if owner == env.statePda {
        r := CheckAuthority(signer, statePda);
      } else if signer != owner {
        return Err(OwnerMismatch);
      } else {
        return Ok(());
      }
    }

    /** Mark the account at `a` cancelled, if the signer may. */
    method CancelExisting(signer: Address, a: Address, statePda: Option<Meta>) returns (r: Result<()>)
      requires Valid()
      modifies this`orders, this`book
      ensures Valid() && match LoadOrder(env, old(View()), a)
        case Err(e) => r == Err(e)
        case Ok(b) =>
          match (if b.intent.owner == env.statePda then CheckOrderAuthority(env, old(View()), signer, statePda)
                 else if signer != b.intent.owner then Err(OwnerMismatch) else Ok(()))
          case Err(e) => r == Err(e)
          case Ok(_) => r.Ok? && View() == old(View()).(orders := old(View()).orders[a := b.(cancelled := true)])
    {
      var account := Load(a);
      if account.Err? {
        return Err(account.error);
      }
      ghost var b := book[a];
      var allowed := CheckCanceller(signer, account.value.ReadIntent().value.owner, statePda);
      if allowed.Err? {
        return Err(allowed.error);
      }
      account.value.SetCancelled();
      Store(a, account.value, b.(cancelled := true));
      return Ok(());
    }

    /** Flip the stored flag of an existing order, or create the order already cancelled. */
    method CancelOrderIx(metas: seq<Meta>, body: seq<Byte>) returns (r: Result<()>)
      requires Valid()
      modifies this
      ensures Valid() && Matches(r, ProcessCancelOrder(env, old(View()), metas, body), View())
    {
      if body != [] && |body| != INTENT_SIZE {
        return Err(InvalidInstructionData);
      }
      if |metas| < 4 {
        return Err(NotEnoughAccountKeys);
      }
      var owner, a := metas[0], metas[2].key;
      var statePda := if |metas| > 4 then Some(metas[4]) else None;
      if !owner.signer {
        return Err(MissingRequiredSignature);
      }
      if Owns(a) {
        r := CancelExisting(owner.key, a, statePda);
        return;
      }
      if body == [] {
        return Err(UninitializedAccount);
      }
      var expectedOwner := owner.key;
      if body[0..32] == env.statePda {
        var authority := CheckAuthority(owner.key, statePda);
        if authority.Err? {
          return Err(authority.error);
        }
        expectedOwner := env.statePda;
      }
      r := CreateAt(a, body, expectedOwner, metas[1], true, Signers(metas));
    }

    /** Filled or expired: anyone. Cancelled: only the owner. Read off the account's bytes. */
    method Reclaimable(account: OrderAccount, ghost b: OrderBody, now: int, recipient: Address, owner: Option<Meta>)
      returns (r: Result<bool>)
      requires account.Holds(b)
      ensures r == IsReclaimable(b, now, recipient, owner)
    {
      if recipient != account.CreatedBy() {
        return Err(ReclaimRecipientMismatch);
      }
      var intent := account.ReadIntent().value;
      var (withdrawn, received) := account.FilledAmounts();
      var (filled, wanted) := FillProgress(intent, withdrawn, received);
      if filled >= wanted || now > intent.validTo {
        return Ok(true);
      }
      if !account.Cancelled().value {
        return Ok(false);
      }
      if owner.None? || !owner.value.signer {
        return Err(MissingRequiredSignature);
      }
      if owner.value.key != intent.owner {
        return Err(OwnerMismatch);
      }
      return Ok(true);
    }

    /** Credit the recipient with the account's lamports, then close the account. */
    method CloseOrder(a: Address, recipient: Address) returns (r: Result<()>)
      requires Valid()
      modifies this`orders, this`book, this`lamports
      ensures Valid() && match CloseInto(old(lamports), a, recipient)
        case Ok(l) => r.Ok? && View() == old(View()).(orders := old(View()).orders - {a}, lamports := l)
        case Err(e) => r == Err(e)
    {
      var orderLamports := Get(lamports, a);
      if Get(lamports, recipient) + orderLamports > U64_MAX {
        return Err(ArithmeticOverflow);
      }
      lamports := lamports[recipient := Get(lamports, recipient) + orderLamports];
      ClosedOrder(orders, book, a);
      orders, book := orders - {a}, book - {a};
      lamports := lamports[a := 0];
      return Ok(());
    }

    /** Pay the order's lamports to its creator and close it. */
    method ReclaimOrderIx(now: int, metas: seq<Meta>, body: seq<Byte>) returns (r: Result<()>)
      requires Valid()
      modifies this
      ensures Valid() && Matches(r, ProcessReclaimOrder(env, now, old(View()), metas, body), View())
    {
      if body != [] {
        return Err(InvalidInstructionData);
      }
      if |metas| < 2 {
        return Err(NotEnoughAccountKeys);
      }
      var a, recipient := metas[0].key, metas[1].key;
      var owner := if |metas| > 2 then Some(metas[2]) else None;
      var account := Load(a);
      if account.Err? {
        return Err(account.error);
      }
      var reclaimable := Reclaimable(account.value, book[a], now, recipient, owner);
      if reclaimable.Err? {
        return Err(reclaimable.error);
      }
      if !reclaimable.value {
        return Err(OrderNotReclaimable);
      }
      r := CloseOrder(a, recipient);
    }

    method CreateOrderIx(metas: seq<Meta>, body: seq<Byte>) returns (r: Result<()>)
      requires Valid()
      modifies this
      ensures Valid() && Matches(r, ProcessCreateOrder(env, old(View()), metas, body), View())
    {
      if |body| != INTENT_SIZE {
        return Err(InvalidInstructionData);
      }
      if |metas| < 4 {
        return Err(NotEnoughAccountKeys);
      }
      if !metas[0].signer {
        return Err(MissingRequiredSignature);
      }
      r := CreateAt(metas[2].key, body, metas[0].key, metas[1], false, Signers(metas));
    }

    method CreateSettlementOwnedOrderIx(metas: seq<Meta>, body: seq<Byte>) returns (r: Result<()>)
      requires Valid()
      modifies this
      ensures Valid() && Matches(r, ProcessCreateSettlementOwnedOrder(env, old(View()), metas, body), View())
    {
      if |body| != INTENT_SIZE {
        return Err(InvalidInstructionData);
      }
      if |metas| < 5 {
        return Err(NotEnoughAccountKeys);
      }
      if metas[2].key != env.statePda {
        return Err(StateAccountMismatch);
      }
      if !SA.Attachable(state) {
        return Err(InvalidAccountData);
      }
      var account := new SA.StateAccount.Attach(state);
      var holder := account.HolderOf(SA.SettlementOwnedOrderAuthority);
      if !metas[0].signer || metas[0].key != holder {
        return Err(UnauthorizedSettlementOwnedOrder);
      }
      r := CreateAt(metas[3].key, body, env.statePda, metas[1], false, Signers(metas));
    }

    // -------------------------------------------------------------------------------------
    // Administration, through the in-place state accessor
    // -------------------------------------------------------------------------------------

    /** Grow the account by one slot and insert a solver into its bytes. */
    method GrowState(solver: Address) returns (r: Result<()>)
      requires SA.Attachable(state)
      modifies this`state
      ensures match SA.Added(old(state), solver)
        case Ok(data) => r.Ok? && state == data
        case Err(e) => r == Err(e) && state == old(state)
    {
      var account := new SA.StateAccount.Attach(state);
      account.Resize(|state| + SA.WIDTH);
      var inserted := account.Insert(solver);
      if inserted.Err? {
        return Err(inserted.error);
      }
      state := account.data[..];
      return Ok(());
    }

    /** The solver authority signs. */
    method CheckSolverAuthority(authority: Meta, statePda: Address) returns (r: Result<()>)
      requires Valid()
      ensures r == RequireSolverAuthority(env, View(), authority, statePda)
    {
      if statePda != env.statePda {
        return Err(StateAccountMismatch);
      }
      if !SA.Attachable(state) {
        return Err(InvalidAccountData);
      }
      var account := new SA.StateAccount.Attach(state);
      var holder := account.HolderOf(SA.SolverAuthority);
      if !authority.signer || authority.key != holder {
        return Err(UnauthorizedSolverManagement);
      }
      return Ok(());
    }

    method AddSolverIx(metas: seq<Meta>, body: seq<Byte>) returns (r: Result<()>)
      requires Valid()
      modifies this
      ensures Valid() && Matches(r, ProcessAddSolver(env, old(View()), metas, body), View())
    {
      if |body| != 32 {
        return Err(InvalidInstructionData);
      }
      if |metas| < 4 {
        return Err(NotEnoughAccountKeys);
      }
      var allowed := CheckSolverAuthority(metas[0], metas[2].key);
      if allowed.Err? {
        return Err(allowed.error);
      }
      var funded := Fund(metas[1], env.statePda, env.rent(|state| + SA.WIDTH));
      if funded.Err? {
        return Err(funded.error);
      }
      r := GrowState(body);
    }

    /** Remove a solver from the account's bytes and shrink the account by its slot. */
    method ShrinkState(solver: Address) returns (r: Result<()>)
      requires SA.Attachable(state)
      modifies this`state
      ensures match SA.Removed(old(state), solver)
        case Ok(data) => r.Ok? && state == data
        case Err(e) => r == Err(e) && state == old(state)
    {
      var account := new SA.StateAccount.Attach(state);
      var newLength := account.Remove(solver);
      if newLength.Err? {
        return Err(newLength.error);
      }
      account.Resize(newLength.value);
      state := account.data[..];
      return Ok(());
    }

    method RemoveSolverIx(metas: seq<Meta>, body: seq<Byte>) returns (r: Result<()>)
      requires Valid()
      modifies this
      ensures Valid() && Matches(r, ProcessRemoveSolver(env, old(View()), metas, body), View())
    {
      if |body| != 32 {
        return Err(InvalidInstructionData);
      }
      if |metas| < 3 {
        return Err(NotEnoughAccountKeys);
      }
      var allowed := CheckSolverAuthority(metas[0], metas[2].key);
      if allowed.Err? {
        return Err(allowed.error);
      }
      var shrunk := ShrinkState(body);
      if shrunk.Err? {
        return Err(shrunk.error);
      }
      var held, minimum := Get(lamports, env.statePda), env.rent(|state|);
      if held < minimum {
        return Err(AccountNotRentExempt);
      }
      r := Move(env.statePda, metas[1].key, held - minimum);
    }

    method TransferAuthorityIx(metas: seq<Meta>, body: seq<Byte>) returns (r: Result<()>)
      requires Valid()
      modifies this
      ensures Valid() && Matches(r, ProcessTransferAuthority(env, old(View()), metas, body), View())
    {
      if |body| != 33 {
        return Err(InvalidInstructionData);
      }
      var role := RoleOf(body[0]);
      if role.Err? {
        return Err(role.error);
      }
      if |metas| < 2 {
        return Err(NotEnoughAccountKeys);
      }
      if metas[1].key != env.statePda {
        return Err(StateAccountMismatch);
      }
      if !metas[0].signer {
        return Err(MissingRequiredSignature);
      }
      if !SA.Attachable(state) {
        return Err(InvalidAccountData);
      }
      var account := new SA.StateAccount.Attach(state);
      var manager := account.HolderOf(SA.Manager);
      var holder := account.HolderOf(role.value);
      if metas[0].key != manager && metas[0].key != holder {
        return Err(UnauthorizedAuthorityTransfer);
      }
      account.SetHolder(role.value, body[1..33]);
      state := account.data[..];
      return Ok(());
    }

    /** Pay out at most what the native buffer holds above its rent minimum. */
    method WithdrawNativeSolIx(metas: seq<Meta>, body: seq<Byte>) returns (r: Result<()>)
      requires Valid()
      modifies this
      ensures Valid() && Matches(r, ProcessWithdrawNativeSol(env, old(View()), metas, body), View())
      ensures r.Ok? ==> orders == old(orders) && state == old(state) && tokens == old(tokens) && mints == old(mints)
      ensures r.Ok? ==> Total(lamports) == old(Total(lamports))
      ensures r.Ok? ==> |body| == 8 && |metas| >= 4
      ensures r.Ok? ==> forall a :: a != env.nativeBuffer && a != metas[3].key ==> Get(lamports, a) == old(Get(lamports, a))
      ensures r.Ok? && metas[3].key != env.nativeBuffer ==>
        old(Get(lamports, env.nativeBuffer)) - Get(lamports, env.nativeBuffer)
        == Min(U64OfBytes(body), if old(Get(lamports, env.nativeBuffer)) < env.rent(0) then 0
                                    else old(Get(lamports, env.nativeBuffer)) - env.rent(0))
    {
      if |body| != 8 {
        return Err(InvalidInstructionData);
      }
      if |metas| < 4 {
        return Err(NotEnoughAccountKeys);
      }
      if metas[0].key != env.statePda {
        return Err(StateAccountMismatch);
      }
      if !SA.Attachable(state) {
        return Err(InvalidAccountData);
      }
      var account := new SA.StateAccount.Attach(state);
      var holder := account.HolderOf(SA.SettlementOwnedOrderAuthority);
      if !metas[1].signer || metas[1].key != holder {
        return Err(UnauthorizedNativeSolWithdrawal);
      }
      if metas[2].key != env.nativeBuffer {
        return Err(NativeSolBufferMismatch);
      }
      var amount := Min(U64OfBytes(body), Surplus(Get(lamports, env.nativeBuffer), env.rent(0)));
      ghost var before := lamports;
      r := Move(env.nativeBuffer, metas[3].key, amount);
      if r.Ok? {
        MoveConserves(before, env.nativeBuffer, metas[3].key, amount);
      }
    }

    /** The reclaim authority signs. */
    method CheckReclaim(metas: seq<Meta>) returns (r: Result<()>)
      requires Valid() && |metas| >= 4
      ensures r == CheckReclaimAuthority(env, View(), metas)
    {
      if metas[0].key != env.statePda {
        return Err(StateAccountMismatch);
      }
      if !SA.Attachable(state) {
        return Err(InvalidAccountData);
      }
      var account := new SA.StateAccount.Attach(state);
      var holder := account.HolderOf(SA.ReclaimAuthority);
      if !metas[1].signer || metas[1].key != holder {
        return Err(ReclaimAuthorityMismatch);
      }
      return Ok(());
    }

    /** The token program's burn. */
    method BurnTokens(buffer: Address, mint: Address, amount: U64) returns (r: Result<()>)
      requires buffer in tokens
      modifies this`tokens, this`mints
      ensures match Burn(env, old(View()), buffer, mint, amount)
        case Ok(w) => r.Ok? && View() == w
        case Err(e) => r == Err(e)
    {
      var account := tokens[buffer];
      if mint !in mints || mints[mint].program != account.program || account.mint != mint
         || account.amount < amount || !MayMove(account, env.statePda, amount) || mints[mint].supply < amount {
        return Err(TokenProgramFailure);
      }
      tokens := tokens[buffer := Debit(account, env.statePda, amount)];
      mints := mints[mint := mints[mint].(supply := mints[mint].supply - amount)];
      return Ok(());
    }

    /** The token program's close of an empty account. */
    method CloseTokens(buffer: Address, recipient: Address) returns (r: Result<()>)
      requires buffer in tokens
      modifies this`tokens, this`lamports
      ensures match Close(env, old(View()), buffer, recipient)
        case Ok(w) => r.Ok? && View() == w
        case Err(e) => r == Err(e)
    {
      if tokens[buffer].amount != 0 || tokens[buffer].owner != env.statePda || recipient == buffer
         || Get(lamports, recipient) + Get(lamports, buffer) > U64_MAX {
        return Err(TokenProgramFailure);
      }
      lamports := lamports[recipient := Get(lamports, recipient) + Get(lamports, buffer)];
      lamports := lamports[buffer := 0];
      tokens := tokens - {buffer};
      return Ok(());
    }

    /** Burn what is left, when anything is, and close the buffer. */
    method Clear(e: Entry, recipient: Address) returns (r: Result<()>)
      requires e.buffer in tokens
      modifies this`tokens, this`mints, this`lamports
      ensures match BurnAndClose(env, old(View()), e, recipient)
        case Ok(w) => r.Ok? && View() == w
        case Err(error) => r == Err(error)
    {
      if tokens[e.buffer].amount > 0 {
        var burned := BurnTokens(e.buffer, e.mint, tokens[e.buffer].amount);
        if burned.Err? {
          return Err(burned.error);
        }
      }
      r := CloseTokens(e.buffer, recipient);
    }

    /** One entry of a batch: check it, and clear it if its balance is within its limit. */
    method NextEntry(e: Entry, recipient: Address, ghost entries: seq<Entry>, ghost any: bool) returns (r: Result<bool>)
      requires Valid() && entries != [] && entries[0] == e
      modifies this`tokens, this`mints, this`lamports
      ensures r.Ok? ==>
        ReclaimEntries(env, old(View()), recipient, entries, any)
        == ReclaimEntries(env, View(), recipient, entries[1..], any || r.value)
      ensures r.Err? ==> ReclaimEntries(env, old(View()), recipient, entries, any) == Err(r.error)
    {
      var found := FindBuffer(env, e.mint);
      if found.None? || found.value.0 != e.buffer {
        return Err(ReclaimBufferNotCanonical);
      }
      if e.buffer !in tokens {
        return Err(InvalidTokenProgram);
      }
      if tokens[e.buffer].amount > e.limit {
        return Ok(false);
      }
      var cleared := Clear(e, recipient);
      return if cleared.Ok? then Ok(true) else Err(cleared.error);
    }

    /** Clear every buffer within its limit, skip the others, fail if none was cleared. */
    method ReclaimBufferIx(metas: seq<Meta>, body: seq<Byte>) returns (r: Result<()>)
      requires Valid()
      modifies this
      ensures Valid() && Matches(r, ProcessReclaimBuffer(env, old(View()), metas, body), View())
    {
      var parsed := ParseEntries(metas, body);
      if parsed.Err? {
        return Err(parsed.error);
      }
      var allowed := CheckReclaim(metas);
      if allowed.Err? {
        return Err(allowed.error);
      }
      var entries, recipient := parsed.value, metas[2].key;
      ghost var spec := ReclaimEntries(env, View(), recipient, entries, false);
      var anyReclaimed := false;
      var k := 0;
      while k < |entries|
        invariant k <= |entries| && Valid()
        invariant spec == ReclaimEntries(env, View(), recipient, entries[k..], anyReclaimed)
      {
        assert entries[k..][0] == entries[k] && entries[k..][1..] == entries[k + 1..];
        var cleared := NextEntry(entries[k], recipient, entries[k..], anyReclaimed);
        if cleared.Err? {
          return Err(cleared.error);
        }
        anyReclaimed := anyReclaimed || cleared.value;
        k := k + 1;
      }
      if !anyReclaimed {
        return Err(ReclaimBufferBurnLimitExceeded);
      }
      return Ok(());
    }

    // -------------------------------------------------------------------------------------
    // Dispatch and transactions
    // -------------------------------------------------------------------------------------

    method Process(now: int, cpi: bool, ixs: seq<Ix>, i: nat, ix: Ix) returns (r: Result<()>)
      requires Valid()
      modifies this
      ensures Valid() && Matches(r, Dispatch(env, now, cpi, ixs, i, ix, old(View())), View())
    {
      var recovered := RecoverDiscriminator(ix.data);
      if recovered.Err? {
        return Err(recovered.error);
      }
      var (kind, body) := recovered.value;
      match kind
      case BeginSettle => r := BeginSettleIx(now, cpi, ixs, i, ix);
      case FinalizeSettle => r := FinalizeSettleIx(cpi, ixs, i, ix);
      case CreateOrder => r := CreateOrderIx(ix.metas, body);
      case Initialize => r := Err(AccountAlreadyInitialized);
      case CreateBuffer => r := Ok(());
      case ReclaimOrder => r := ReclaimOrderIx(now, ix.metas, body);
      case ReclaimBuffer => r := ReclaimBufferIx(ix.metas, body);
      case TransferAuthority => r := TransferAuthorityIx(ix.metas, body);
      case AddSolver => r := AddSolverIx(ix.metas, body);
      case RemoveSolver => r := RemoveSolverIx(ix.metas, body);
      case CreateSettlementOwnedOrder => r := CreateSettlementOwnedOrderIx(ix.metas, body);
      case CancelOrder => r := CancelOrderIx(ix.metas, body);
      case WithdrawNativeSol => r := WithdrawNativeSolIx(ix.metas, body);
    }

    /** What foreign code may leave behind: no account of this program debited. */
    method WriteLedgers(newTokens: Tokens, newMints: map<Address, Mint>, newLamports: Lamports) returns (r: Result<()>)
      requires Valid()
      modifies this`tokens, this`mints, this`lamports
      ensures if LegalWrite(env, old(View()), newLamports)
              then r.Ok? && View() == old(View()).(tokens := newTokens, mints := newMints, lamports := newLamports)
              else r == Err(IllegalForeignWrite)
    {
      if (exists a | a in orders :: Get(newLamports, a) < Get(lamports, a))
         || Get(newLamports, env.statePda) < Get(lamports, env.statePda)
         || Get(newLamports, env.nativeBuffer) < Get(lamports, env.nativeBuffer) {
        return Err(IllegalForeignWrite);
      }
      tokens, mints, lamports := newTokens, newMints, newLamports;
      return Ok(());
    }

    method Act(now: int, ixs: seq<Ix>, i: nat, act: Act) returns (r: Result<()>)
      requires Valid()
      modifies this
      ensures Valid() && Matches(r, DoAct(env, now, ixs, i, act, old(View())), View())
    {
      match act
      case Write(newTokens, newMints, newLamports) => r := WriteLedgers(newTokens, newMints, newLamports);
      case Call(ix) =>
        if ix.programId == env.programId {
          r := Process(now, true, ixs, i, ix);
        } else {
          return Ok(());
        }
    }

    method Acts(now: int, ixs: seq<Ix>, i: nat, acts: seq<Act>) returns (r: Result<()>)
      requires Valid()
      modifies this
      ensures Valid() && Matches(r, DoActs(env, now, ixs, i, acts, old(View())), View())
    {
      ghost var spec := DoActs(env, now, ixs, i, acts, View());
      var k := 0;
      while k < |acts|
        invariant k <= |acts| && Valid()
        invariant SameEnd(spec, DoActs(env, now, ixs, i, acts[k..], View()))
      {
        assert acts[k..][0] == acts[k] && acts[k..][1..] == acts[k + 1..];
        var done := Act(now, ixs, i, acts[k]);
        if done.Err? {
          return Err(done.error);
        }
        k := k + 1;
      }
      return Ok(());
    }

    method RunOp(now: int, ixs: seq<Ix>, i: nat, op: Op) returns (r: Result<()>)
      requires Valid()
      modifies this
      ensures Valid() && Matches(r, Exec(env, now, ixs, i, op, old(View())), View())
    {
      if IsOpaque(env, op.ix) {
        r := Acts(now, ixs, i, op.acts);
      } else {
        r := Process(now, false, ixs, i, op.ix);
      }
    }

    /** Run every instruction in order, stopping at the first failure. */
    method RunAll(now: int, tx: Tx) returns (r: Result<()>)
      requires Valid()
      modifies this
      ensures Valid() && Matches(r, RunTx(env, now, tx, old(View())), View())
    {
      var ixs := Ixs(tx);
      var k := 0;
      while k < |tx|
        invariant k <= |tx| && Valid()
        invariant SameEnd(RunTx(env, now, tx, old(View())), RunFrom(env, now, tx, View(), k))
      {
        var done := RunOp(now, ixs, k, tx[k]);
        if done.Err? {
          return Err(done.error);
        }
        k := k + 1;
      }
      return Ok(());
    }

    /** A transaction: a failure restores every account, byte for byte. */
    method RunTransaction(now: int, tx: Tx) returns (r: Result<()>)
      requires Valid()
      modifies this
      ensures Valid() && match RunTx(env, now, tx, old(View()))
        case Ok(outcome) => r.Ok? && View() == outcome.world
        case Err(e) => r == Err(e) && orders == old(orders) && View() == old(View())
    {
      var savedOrders, savedState, savedTokens, savedMints, savedLamports := orders, state, tokens, mints, lamports;
      ghost var savedBook := book;
      r := RunAll(now, tx);
      if r.Err? {
        orders, state, tokens, mints, lamports := savedOrders, savedState, savedTokens, savedMints, savedLamports;
        book := savedBook;
      }
    }
  }
}
