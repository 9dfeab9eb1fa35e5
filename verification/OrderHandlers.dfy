/** Creating, cancelling and reclaiming orders. */
module OrderHandlers {
  import opened Basics
  import opened Intent
  import opened OrderAccounts
  import opened Fills
  import opened SettleWire
  import opened Ledger
  import opened Worlds
  import StateAccounts

  /** A system-program transfer: a signing payer that is not program-owned. */
  function SystemTransfer(env: Env, w: World, from: Meta, to: Address, amount: nat): (r: Result<Lamports>)
  {
    if !from.signer || ProgramOwned(env, w, from.key) || from.key == to then Err(SystemProgramFailure) else
    match MoveLamports(w.lamports, from.key, to, amount)
    case Ok(l) => Ok(l)
    case Err(_) => Err(SystemProgramFailure)
  }

  /** Bring `to` up to `minimum`, paying only what is missing. */
  function TopUp(env: Env, w: World, payer: Meta, to: Address, minimum: nat): (r: Result<Lamports>)
  {
    var held := Get(w.lamports, to);
    if held >= minimum then Ok(w.lamports) else SystemTransfer(env, w, payer, to, minimum - held)
  }

  lemma TopUpEffect(env: Env, w: World, payer: Meta, to: Address, minimum: nat)
    requires TopUp(env, w, payer, to, minimum).Ok?
    ensures var l := TopUp(env, w, payer, to, minimum).value;
      && Total(l) == Total(w.lamports)
      && Get(l, to) >= minimum
      && (forall a :: a != payer.key ==> Get(l, a) >= Get(w.lamports, a))
      && forall a :: a != payer.key && a != to ==> Get(l, a) == Get(w.lamports, a)
  {
    var held := Get(w.lamports, to);
    if held < minimum {
      MoveConserves(w.lamports, payer.key, to, minimum - held);
    }
  }

  /** `to` already holds the minimum, or a signing payer that is no account of the program can pay what
      is missing. */
  ghost predicate CanFund(env: Env, w: World, payer: Meta, to: Address, minimum: nat)
  {
    var held := Get(w.lamports, to);
    held < minimum ==>
      && payer.signer && payer.key != to && payer.key !in w.orders && payer.key != env.statePda && payer.key != env.nativeBuffer
      && held + Get(w.lamports, payer.key) >= minimum && minimum <= U64_MAX
  }

  /** The payer paid what `to` lacked, and not more; every other account kept its lamports. */
  ghost predicate Funded(l: Lamports, payer: Address, to: Address, minimum: nat, l': Lamports)
  {
    var held := Get(l, to);
    if held >= minimum then l' == l
    else && Get(l', to) == minimum && Get(l', payer) + minimum == Get(l, payer) + held
         && forall a :: a != to && a != payer ==> Get(l', a) == Get(l, a)
  }

  /** Funding succeeds exactly when it can be paid, and the payer pays what is missing and not more. */
  lemma TopUpExact(env: Env, w: World, payer: Meta, to: Address, minimum: nat)
    ensures TopUp(env, w, payer, to, minimum).Ok? <==> CanFund(env, w, payer, to, minimum)
    ensures TopUp(env, w, payer, to, minimum).Ok? ==>
      Funded(w.lamports, payer.key, to, minimum, TopUp(env, w, payer, to, minimum).value)
  {}

  /** The current holder of the settlement-owned-order role. */
  function OrderAuthority(w: World): (a: Address)
    requires StateAccounts.Attachable(w.state)
  {
    StateAccounts.Authority(w.state, StateAccounts.SettlementOwnedOrderAuthority)
  }

  /** The same, defaulting on a state that does not attach; only used to label events. */
  function AuthorityLabel(w: World): (a: Address)
  {
    if StateAccounts.Attachable(w.state) then OrderAuthority(w) else NATIVE_MARKER
  }

  // ---------------------------------------------------------------------------------------
  // Creation
  // ---------------------------------------------------------------------------------------

  /** Validate the intent, check its owner, create the canonical account and write its body. */
  function NewOrder(env: Env, w: World, pda: Address, intentBytes: seq<Byte>, expectedOwner: Address,
                    createdBy: Meta, cancelled: bool, signers: set<Address>): (r: Result<Outcome>)
    requires |intentBytes| == INTENT_SIZE
  {
    var _ :- CheckBytes(intentBytes);
    CheckAgreesWithDecode(intentBytes);
    var intent := DecodeIntent(intentBytes).value;
    if expectedOwner != intent.owner then Err(OwnerMismatch) else
    match FindOrder(env, intent)
    case None => Err(AccountNotDerivable)
    case Some((canonical, bump)) =>
      if pda != canonical then Err(SystemProgramFailure) else
      if ProgramOwned(env, w, pda) then Err(AccountAlreadyInitialized) else
      var l :- TopUp(env, w, createdBy, pda, env.rent(ORDER_SIZE));
      var body := OrderBody(bump, cancelled, 0, 0, createdBy.key, intent);
      Ok(Outcome(w.(orders := w.orders[pda := body], lamports := l),
                 [Created(pda, body, signers, AuthorityLabel(w))]))
  }

  function ProcessCreateOrder(env: Env, w: World, metas: seq<Meta>, body: seq<Byte>): (r: Result<Outcome>)
  {
    if |body| != INTENT_SIZE then Err(InvalidInstructionData) else
    if |metas| < 4 then Err(NotEnoughAccountKeys) else
    if !metas[0].signer then Err(MissingRequiredSignature) else
    NewOrder(env, w, metas[2].key, body, metas[0].key, metas[1], false, Signers(metas))
  }

  function ProcessCreateSettlementOwnedOrder(env: Env, w: World, metas: seq<Meta>, body: seq<Byte>): (r: Result<Outcome>)
  {
    if |body| != INTENT_SIZE then Err(InvalidInstructionData) else
    if |metas| < 5 then Err(NotEnoughAccountKeys) else
    if metas[2].key != env.statePda then Err(StateAccountMismatch) else
    if !StateAccounts.Attachable(w.state) then Err(InvalidAccountData) else
    if !metas[0].signer || metas[0].key != OrderAuthority(w) then Err(UnauthorizedSettlementOwnedOrder) else
    NewOrder(env, w, metas[3].key, body, env.statePda, metas[1], false, Signers(metas))
  }

  /** The bytes are an intent of `owner` whose canonical address is `pda`, nothing of the program is
      there yet, and its rent can be paid. */
  ghost predicate Creatable(env: Env, w: World, pda: Address, bytes: seq<Byte>, owner: Address, payer: Meta)
  {
    && |bytes| == 213 && bytes[180] in {0, 2, 4, 6}
    && U64OfBytes(bytes[160..168]) > 0 && U64OfBytes(bytes[168..176]) > 0 && bytes[0..32] == owner
    && DecodeIntent(bytes).Ok? && FindOrder(env, DecodeIntent(bytes).value).Some?
    && FindOrder(env, DecodeIntent(bytes).value).value.0 == pda
    && pda !in w.orders && pda != env.statePda && pda != env.nativeBuffer
    && CanFund(env, w, payer, pda, env.rent(264))
  }

  /** The new world holds one order more, unfilled, of the decoded intent, created by `payer`; only the
      rent moved. */
  ghost predicate CreatesOrder(env: Env, w: World, pda: Address, bytes: seq<Byte>, payer: Address, cancelled: bool, w': World)
  {
    && |bytes| == 213 && DecodeIntent(bytes).Ok? && FindOrder(env, DecodeIntent(bytes).value).Some?
    && var bump := FindOrder(env, DecodeIntent(bytes).value).value.1;
       && w' == w.(orders := w.orders[pda := OrderBody(bump, cancelled, 0, 0, payer, DecodeIntent(bytes).value)],
                   lamports := w'.lamports)
       && Funded(w.lamports, payer, pda, env.rent(264), w'.lamports)
  }

  lemma NewOrderExact(env: Env, w: World, pda: Address, bytes: seq<Byte>, owner: Address, payer: Meta, cancelled: bool,
                      signers: set<Address>)
    requires |bytes| == INTENT_SIZE
    ensures var r := NewOrder(env, w, pda, bytes, owner, payer, cancelled, signers);
      && (r.Ok? <==> Creatable(env, w, pda, bytes, owner, payer))
      && (r.Ok? ==> CreatesOrder(env, w, pda, bytes, payer.key, cancelled, r.value.world)
                    && |r.value.events| == 1 && r.value.events[0].Created? && r.value.events[0].order == pda)
  {
    DecodedSlots(bytes);
    CheckAgreesWithDecode(bytes);
    TopUpExact(env, w, payer, pda, env.rent(ORDER_SIZE));
  }

  /** CreateOrder succeeds exactly when the first account signs as the intent's owner and the order can
      be created; it then stores it live. */
  lemma CreateOrderExact(env: Env, w: World, metas: seq<Meta>, body: seq<Byte>)
    ensures var r := ProcessCreateOrder(env, w, metas, body);
      && (r.Ok? <==> |body| == 213 && |metas| >= 4 && metas[0].signer
                     && Creatable(env, w, metas[2].key, body, metas[0].key, metas[1]))
      && (r.Ok? ==> CreatesOrder(env, w, metas[2].key, body, metas[1].key, false, r.value.world))
  {
    if |body| == INTENT_SIZE && |metas| >= 4 {
      NewOrderExact(env, w, metas[2].key, body, metas[0].key, metas[1], false, Signers(metas));
    }
  }

  /** CreateSettlementOwnedOrder succeeds exactly when the role's holder signs and the order, owned by the
      settlement itself, can be created; it then stores it live. */
  lemma CreateSettlementOwnedOrderExact(env: Env, w: World, metas: seq<Meta>, body: seq<Byte>)
    ensures var r := ProcessCreateSettlementOwnedOrder(env, w, metas, body);
      && (r.Ok? <==> |body| == 213 && |metas| >= 5 && SignsAs(env, w, metas[0], metas[2].key, 97)
                     && Creatable(env, w, metas[3].key, body, env.statePda, metas[1]))
      && (r.Ok? ==> CreatesOrder(env, w, metas[3].key, body, metas[1].key, false, r.value.world))
  {
    if |body| == INTENT_SIZE && |metas| >= 5 {
      NewOrderExact(env, w, metas[3].key, body, env.statePda, metas[1], false, Signers(metas));
    }
  }

  // ---------------------------------------------------------------------------------------
  // Cancellation
  // ---------------------------------------------------------------------------------------

  function CheckOrderAuthority(env: Env, w: World, signer: Address, statePda: Option<Meta>): (r: Result<()>)
  {
    if statePda.None? then Err(NotEnoughAccountKeys) else
    if statePda.value.key != env.statePda then Err(StateAccountMismatch) else
    if !StateAccounts.Attachable(w.state) then Err(InvalidAccountData) else
    if signer != OrderAuthority(w) then Err(UnauthorizedSettlementOwnedOrder) else Ok(())
  }

  /** The order stored at a program address, confirmed to live at its own derivation. */
  function LoadOrder(env: Env, w: World, a: Address): (r: Result<OrderBody>)
    ensures r.Ok? <==> a in w.orders && env.orderAddress(w.orders[a].intent, w.orders[a].bump) == Some(a)
    ensures r.Ok? ==> r.value == w.orders[a]
  {
    if a !in w.orders then Err(InvalidAccountData) else
    if env.orderAddress(w.orders[a].intent, w.orders[a].bump) != Some(a) then Err(AccountNotDerivable)
    else Ok(w.orders[a])
  }

  /** Flip an existing order's flag, or create the order already cancelled. */
  function ProcessCancelOrder(env: Env, w: World, metas: seq<Meta>, body: seq<Byte>): (r: Result<Outcome>)
  {
    if body != [] && |body| != INTENT_SIZE then Err(InvalidInstructionData) else
    if |metas| < 4 then Err(NotEnoughAccountKeys) else
    var owner, a := metas[0], metas[2].key;
    var statePda := if |metas| > 4 then Some(metas[4]) else None;
    if !owner.signer then Err(MissingRequiredSignature) else
    if ProgramOwned(env, w, a) then
      var b :- LoadOrder(env, w, a);
      var _ :- if b.intent.owner == env.statePda then CheckOrderAuthority(env, w, owner.key, statePda)
               else if owner.key != b.intent.owner then Err(OwnerMismatch) else Ok(());
      Ok(Outcome(w.(orders := w.orders[a := b.(cancelled := true)]),
                 [Cancelled(a, Signers(metas), AuthorityLabel(w))]))
    else if body == [] then Err(UninitializedAccount) else
      var settlementOwned := body[0..32] == env.statePda;
      var _ :- if settlementOwned then CheckOrderAuthority(env, w, owner.key, statePda) else Ok(());
      NewOrder(env, w, a, body, if settlementOwned then env.statePda else owner.key, metas[1], true, Signers(metas))
  }

  /** `owner` may speak for orders of `orderOwner`: it is that owner, or the authority for the
      settlement's own orders, with the state account as the fifth one. */
  ghost predicate MayCancel(env: Env, w: World, metas: seq<Meta>, orderOwner: Address)
    requires |metas| >= 4
  {
    if orderOwner == env.statePda
    then |metas| > 4 && SignsAs(env, w, metas[0], metas[4].key, 97)
    else metas[0].key == orderOwner
  }

  /** CancelOrder on an order that is stored succeeds exactly when its owner, or the authority, signs,
      and then sets its flag and changes nothing else. */
  lemma CancelStoredExact(env: Env, w: World, metas: seq<Meta>, body: seq<Byte>)
    requires |metas| >= 4 && metas[2].key in w.orders
    ensures var r, a := ProcessCancelOrder(env, w, metas, body), metas[2].key;
      && (r.Ok? <==> (|body| == 0 || |body| == 213) && metas[0].signer
                     && env.orderAddress(w.orders[a].intent, w.orders[a].bump) == Some(a)
                     && MayCancel(env, w, metas, w.orders[a].intent.owner))
      && (r.Ok? ==> r.value.world == w.(orders := w.orders[a := w.orders[a].(cancelled := true)])
                    && |r.value.events| == 1 && r.value.events[0].Cancelled? && r.value.events[0].order == a)
  {}

  /** CancelOrder on an order that is not stored succeeds exactly when the intent is given, its owner,
      or the authority, signs, and it can be created, and then stores it cancelled. */
  lemma CancelUnstoredExact(env: Env, w: World, metas: seq<Meta>, body: seq<Byte>)
    requires |metas| >= 4 && metas[2].key !in w.orders
    ensures var r := ProcessCancelOrder(env, w, metas, body);
      && (r.Ok? <==> |body| == 213 && metas[0].signer && MayCancel(env, w, metas, body[0..32])
                     && Creatable(env, w, metas[2].key, body, body[0..32], metas[1]))
      && (r.Ok? ==> CreatesOrder(env, w, metas[2].key, body, metas[1].key, true, r.value.world))
  {
    if |body| == INTENT_SIZE {
      var owner := if body[0..32] == env.statePda then env.statePda else metas[0].key;
      NewOrderExact(env, w, metas[2].key, body, owner, metas[1], true, Signers(metas));
    }
  }

  /** Whatever it was before, the order a successful CancelOrder names is stored and cancelled after. */
  lemma CancelCancels(env: Env, w: World, metas: seq<Meta>, body: seq<Byte>)
    requires ProcessCancelOrder(env, w, metas, body).Ok?
    ensures |metas| >= 4
    ensures var w', a := ProcessCancelOrder(env, w, metas, body).value.world, metas[2].key;
      && a in w'.orders && w'.orders[a].cancelled
      && (a in w.orders ==> w'.orders[a] == w.orders[a].(cancelled := true))
      && (a !in w.orders ==>
            && w'.orders[a].withdrawn == 0 && w'.orders[a].intent.sellAmount > 0
            && w'.orders[a].received == 0 && w'.orders[a].intent.buyAmount > 0)
      && forall x :: x != a ==> (x in w'.orders <==> x in w.orders) && (x in w.orders ==> w'.orders[x] == w.orders[x])
  {
    if metas[2].key in w.orders {
      CancelStoredExact(env, w, metas, body);
    } else {
      CancelUnstoredExact(env, w, metas, body);
      DecodedSlots(body);
    }
  }

  // ---------------------------------------------------------------------------------------
  // Reclaiming
  // ---------------------------------------------------------------------------------------

  /** Filled or expired: anyone. Cancelled: only the owner. */
  function IsReclaimable(b: OrderBody, now: int, recipient: Address, owner: Option<Meta>): (r: Result<bool>)
  {
    if recipient != b.createdBy then Err(ReclaimRecipientMismatch) else
    var (filled, wanted) := FillProgress(b.intent, b.withdrawn, b.received);
    if filled >= wanted then Ok(true) else
    if now > b.intent.validTo then Ok(true) else
    if !b.cancelled then Ok(false) else
    if owner.None? || !owner.value.signer then Err(MissingRequiredSignature) else
    if owner.value.key != b.intent.owner then Err(OwnerMismatch) else Ok(true)
  }

  /** Pay the whole balance to the recipient, then close the account. */
  function CloseInto(l: Lamports, a: Address, recipient: Address): (r: Result<Lamports>)
  {
    if Get(l, recipient) + Get(l, a) > U64_MAX then Err(ArithmeticOverflow) else
    Ok(l[recipient := Get(l, recipient) + Get(l, a)][a := 0])
  }

  function ProcessReclaimOrder(env: Env, now: int, w: World, metas: seq<Meta>, body: seq<Byte>): (r: Result<Outcome>)
  {
    if body != [] then Err(InvalidInstructionData) else
    if |metas| < 2 then Err(NotEnoughAccountKeys) else
    var a, recipient := metas[0].key, metas[1].key;
    var owner := if |metas| > 2 then Some(metas[2]) else None;
    var b :- LoadOrder(env, w, a);
    var ok :- IsReclaimable(b, now, recipient, owner);
    if !ok then Err(OrderNotReclaimable) else
    var l :- CloseInto(w.lamports, a, recipient);
    Ok(Outcome(w.(orders := w.orders - {a}, lamports := l), [Reclaimed(a, Signers(metas))]))
  }

  /** ReclaimOrder succeeds exactly on an order stored at its derivation, for its creator as recipient,
      when the order is filled, or expired, or cancelled with its owner signing as the third account,
      and the creator has room for the refund. It then closes that order and nothing else. */
  lemma ReclaimExact(env: Env, now: int, w: World, metas: seq<Meta>, body: seq<Byte>)
    ensures var r := ProcessReclaimOrder(env, now, w, metas, body);
      r.Ok? <==>
        && body == [] && |metas| >= 2 && metas[0].key in w.orders
        && var b := w.orders[metas[0].key];
           && env.orderAddress(b.intent, b.bump) == Some(metas[0].key) && metas[1].key == b.createdBy
           && (|| (b.intent.flags.kind.Sell? && b.withdrawn >= b.intent.sellAmount)
               || (b.intent.flags.kind.Buy? && b.received >= b.intent.buyAmount)
               || now > b.intent.validTo
               || (b.cancelled && |metas| > 2 && metas[2].signer && metas[2].key == b.intent.owner))
           && Get(w.lamports, b.createdBy) + Get(w.lamports, metas[0].key) <= U64_MAX
    ensures var r := ProcessReclaimOrder(env, now, w, metas, body);
      r.Ok? ==> r.value.world == w.(orders := w.orders - {metas[0].key}, lamports := r.value.world.lamports)
                && r.value.events == [Reclaimed(metas[0].key, Signers(metas))]
  {}

  /** Closing conserves lamports exactly when the recipient is another account, or nothing was
      held: paid to itself, the closed account's balance is destroyed. */
  lemma CloseConservesIff(l: Lamports, a: Address, recipient: Address)
    requires CloseInto(l, a, recipient).Ok?
    ensures Total(CloseInto(l, a, recipient).value) == Total(l) <==> recipient != a || Get(l, a) == 0
    ensures recipient == a ==> Total(CloseInto(l, a, recipient).value) == Total(l) - Get(l, a)
  {
    var paid := l[recipient := Get(l, recipient) + Get(l, a)];
    TotalUpdate(l, recipient, Get(l, recipient) + Get(l, a));
    TotalUpdate(paid, a, 0);
  }

  lemma NewOrderConserves(env: Env, w: World, pda: Address, intentBytes: seq<Byte>, expectedOwner: Address,
                          createdBy: Meta, cancelled: bool, signers: set<Address>)
    requires |intentBytes| == INTENT_SIZE
    requires NewOrder(env, w, pda, intentBytes, expectedOwner, createdBy, cancelled, signers).Ok?
    ensures var w' := NewOrder(env, w, pda, intentBytes, expectedOwner, createdBy, cancelled, signers).value.world;
      && Total(w'.lamports) == Total(w.lamports) && Get(w'.lamports, pda) >= env.rent(ORDER_SIZE)
      && forall a :: a != createdBy.key && a != pda ==> Get(w'.lamports, a) == Get(w.lamports, a)
  {
    TopUpEffect(env, w, createdBy, pda, env.rent(ORDER_SIZE));
  }

  /** Cancelling conserves lamports, whether it flips a flag or creates the order. */
  lemma CancelConserves(env: Env, w: World, metas: seq<Meta>, body: seq<Byte>)
    requires ProcessCancelOrder(env, w, metas, body).Ok?
    ensures Total(ProcessCancelOrder(env, w, metas, body).value.world.lamports) == Total(w.lamports)
  {
    if !ProgramOwned(env, w, metas[2].key) {
      var owner := if body[0..32] == env.statePda then env.statePda else metas[0].key;
      NewOrderConserves(env, w, metas[2].key, body, owner, metas[1], true, Signers(metas));
    }
  }

  /** Reclaiming to an account other than the order conserves lamports. */
  lemma ReclaimConserves(env: Env, now: int, w: World, metas: seq<Meta>, body: seq<Byte>)
    requires ProcessReclaimOrder(env, now, w, metas, body).Ok?
    requires metas[0].key != metas[1].key
    ensures Total(ProcessReclaimOrder(env, now, w, metas, body).value.world.lamports) == Total(w.lamports)
  {
    CloseConservesIff(w.lamports, metas[0].key, metas[1].key);
  }

  /** A reclaim closes exactly one order, which is filled, expired, or cancelled with its owner
      signing, and its whole balance goes to the account that created it and nowhere else. */
  lemma ReclaimRefundsCreator(env: Env, now: int, w: World, metas: seq<Meta>, body: seq<Byte>)
    requires ProcessReclaimOrder(env, now, w, metas, body).Ok?
    ensures metas[0].key in w.orders
    ensures var a, w' := metas[0].key, ProcessReclaimOrder(env, now, w, metas, body).value.world;
      var b := w.orders[a];
      var (filled, wanted) := FillProgress(b.intent, b.withdrawn, b.received);
      && (filled >= wanted || now > b.intent.validTo || (b.cancelled && b.intent.owner in Signers(metas)))
      && w'.orders == w.orders - {a} && Get(w'.lamports, a) == 0
      && (b.createdBy != a ==>
            Get(w'.lamports, b.createdBy) == Get(w.lamports, b.createdBy) + Get(w.lamports, a))
      && forall x :: x != a && x != b.createdBy ==> Get(w'.lamports, x) == Get(w.lamports, x)
  {
    if |metas| > 2 && metas[2].signer {
      assert metas[2] in metas;
    }
  }

  // ---------------------------------------------------------------------------------------
  // Closing and creating anew
  // ---------------------------------------------------------------------------------------

  /** Anyone closes a completely filled order, cancelled or not, without any signature. */
  lemma FilledClosedByAnyone(env: Env, now: int, w: World, a: Address)
    requires a in w.orders && env.orderAddress(w.orders[a].intent, w.orders[a].bump) == Some(a)
    requires var b := w.orders[a];
      var (filled, wanted) := FillProgress(b.intent, b.withdrawn, b.received); filled >= wanted
    requires Get(w.lamports, w.orders[a].createdBy) + Get(w.lamports, a) <= U64_MAX
    ensures var r := ProcessReclaimOrder(env, now, w, [Meta(a, false), Meta(w.orders[a].createdBy, false)], []);
      r.Ok? && r.value.world == w.(orders := w.orders - {a},
                                   lamports := CloseInto(w.lamports, a, w.orders[a].createdBy).value)
  {}

  /** Once closed, the owner's plain creation starts the order afresh: unfilled, and not
      cancelled even if it had been. */
  lemma ClosedCreatedAfresh(env: Env, w: World, a: Address, bump: Byte, intent: OrderIntent, payer: Meta)
    requires Denotable(intent.buy) && FindOrder(env, intent) == Some((a, bump)) && !ProgramOwned(env, w, a)
    requires payer.signer && !ProgramOwned(env, w, payer.key) && payer.key != a
    requires env.rent(ORDER_SIZE) <= Get(w.lamports, payer.key) && Get(w.lamports, a) == 0
    requires env.rent(ORDER_SIZE) <= U64_MAX
    ensures var metas := [Meta(intent.owner, true), payer, Meta(a, false), Meta(env.sysvar, false)];
      var r := ProcessCreateOrder(env, w, metas, EncodeIntent(intent));
      r.Ok? && r.value.world.orders == w.orders[a := OrderBody(bump, false, 0, 0, payer.key, intent)]
  {
    IntentRoundTrip(intent);
    CheckAgreesWithDecode(EncodeIntent(intent));
  }
}
