/** The solver list, the roles and the native buffer: handlers and their rent accounting. */
module AdminHandlers {
  import opened Basics
  import opened SettleWire
  import opened Ledger
  import opened Worlds
  import opened StateAccounts
  import OrderHandlers

  /** Role selectors on the wire. */
  function RoleOf(b: Byte): (r: Result<Role>)
  {
    match b
    case 0 => Ok(Manager)
    case 1 => Ok(SolverAuthority)
    case 2 => Ok(ReclaimAuthority)
    case 3 => Ok(SettlementOwnedOrderAuthority)
    case _ => Err(InvalidInstructionData)
  }

  /** Check the state account and that `authority` signs as the solver authority. */
  function RequireSolverAuthority(env: Env, w: World, authority: Meta, statePda: Address): (r: Result<()>)
    ensures r.Ok? ==> Attachable(w.state)
  {
    if statePda != env.statePda then Err(StateAccountMismatch) else
    if !Attachable(w.state) then Err(InvalidAccountData) else
    if !authority.signer || authority.key != Authority(w.state, SolverAuthority)
    then Err(UnauthorizedSolverManagement) else Ok(())
  }

  /** Top up the rent of the grown account, grow it and insert. */
  function ProcessAddSolver(env: Env, w: World, metas: seq<Meta>, body: seq<Byte>): (r: Result<Outcome>)
  {
    if |body| != 32 then Err(InvalidInstructionData) else
    if |metas| < 4 then Err(NotEnoughAccountKeys) else
    var _ :- RequireSolverAuthority(env, w, metas[0], metas[2].key);
    var l :- OrderHandlers.TopUp(env, w, metas[1], env.statePda, env.rent(|w.state| + WIDTH));
    var data :- Added(w.state, body);
    Ok(Outcome(w.(state := data, lamports := l), [SolverAdded(body, Signers(metas))]))
  }

  /** Remove, shrink and refund what the smaller account no longer needs. */
  function ProcessRemoveSolver(env: Env, w: World, metas: seq<Meta>, body: seq<Byte>): (r: Result<Outcome>)
  {
    if |body| != 32 then Err(InvalidInstructionData) else
    if |metas| < 3 then Err(NotEnoughAccountKeys) else
    var _ :- RequireSolverAuthority(env, w, metas[0], metas[2].key);
    var data :- Removed(w.state, body);
    var held, minimum := Get(w.lamports, env.statePda), env.rent(|data|);
    if held < minimum then Err(AccountNotRentExempt) else
    var l :- MoveLamports(w.lamports, env.statePda, metas[1].key, held - minimum);
    Ok(Outcome(w.(state := data, lamports := l), [SolverRemoved(body, Signers(metas))]))
  }

  /** The manager or the role's holder hands the role over in one step. */
  function ProcessTransferAuthority(env: Env, w: World, metas: seq<Meta>, body: seq<Byte>): (r: Result<Outcome>)
  {
    if |body| != 33 then Err(InvalidInstructionData) else
    var role :- RoleOf(body[0]);
    if |metas| < 2 then Err(NotEnoughAccountKeys) else
    if metas[1].key != env.statePda then Err(StateAccountMismatch) else
    if !metas[0].signer then Err(MissingRequiredSignature) else
    if !Attachable(w.state) then Err(InvalidAccountData) else
    if metas[0].key != Authority(w.state, Manager) && metas[0].key != Authority(w.state, role)
    then Err(UnauthorizedAuthorityTransfer) else
    Ok(Outcome(w.(state := SetAuthority(w.state, role, body[1..33])),
               [RoleGiven(role, body[1..33], Signers(metas))]))
  }

  /** What an account holds above a minimum. */
  function Surplus(held: nat, minimum: nat): (n: nat)
  {
    if held >= minimum then held - minimum else 0
  }

  /** Pay out at most what the native buffer holds above its rent minimum. */
  function ProcessWithdrawNativeSol(env: Env, w: World, metas: seq<Meta>, body: seq<Byte>): (r: Result<Outcome>)
  {
    if |body| != 8 then Err(InvalidInstructionData) else
    if |metas| < 4 then Err(NotEnoughAccountKeys) else
    if metas[0].key != env.statePda then Err(StateAccountMismatch) else
    if !Attachable(w.state) then Err(InvalidAccountData) else
    if !metas[1].signer || metas[1].key != OrderHandlers.OrderAuthority(w)
    then Err(UnauthorizedNativeSolWithdrawal) else
    if metas[2].key != env.nativeBuffer then Err(NativeSolBufferMismatch) else
    var held, minimum := Get(w.lamports, env.nativeBuffer), env.rent(0);
    var l :- MoveLamports(w.lamports, env.nativeBuffer, metas[3].key, Min(U64OfBytes(body), Surplus(held, minimum)));
    Ok(Outcome(w.(lamports := l), []))
  }

  // ---------------------------------------------------------------------------------------
  // Rent
  // ---------------------------------------------------------------------------------------

  /** The state account holds at least the minimum for its current length. */
  ghost predicate RentExempt(env: Env, w: World)
  {
    Get(w.lamports, env.statePda) >= env.rent(|w.state|)
  }

  ghost predicate MonotoneRent(env: Env)
  {
    forall m: nat, n: nat :: m <= n ==> env.rent(m) <= env.rent(n)
  }

  /** Nothing but the state bytes and the lamports changed, and the lamports were conserved. */
  ghost predicate OnlyStateAndRent(w: World, w': World)
  {
    && w' == w.(state := w'.state, lamports := w'.lamports)
    && Total(w'.lamports) == Total(w.lamports)
  }

  /** Adding a solver leaves the state account rent-exempt at its new length. */
  lemma AddSolverKeepsRent(env: Env, w: World, metas: seq<Meta>, body: seq<Byte>)
    requires ProcessAddSolver(env, w, metas, body).Ok?
    ensures var w' := ProcessAddSolver(env, w, metas, body).value.world;
      && RentExempt(env, w') && OnlyStateAndRent(w, w')
      && forall a :: a != metas[1].key && a != env.statePda ==> Get(w'.lamports, a) == Get(w.lamports, a)
  {
    OrderHandlers.TopUpEffect(env, w, metas[1], env.statePda, env.rent(|w.state| + WIDTH));
  }

  /** Removing a solver refunds the surplus and leaves the state account rent-exempt. */
  lemma RemoveSolverKeepsRent(env: Env, w: World, metas: seq<Meta>, body: seq<Byte>)
    requires ProcessRemoveSolver(env, w, metas, body).Ok?
    ensures var w' := ProcessRemoveSolver(env, w, metas, body).value.world;
      && RentExempt(env, w') && OnlyStateAndRent(w, w')
      && (metas[1].key != env.statePda ==> Get(w'.lamports, env.statePda) == env.rent(|w'.state|))
      && forall a :: a != metas[1].key && a != env.statePda ==> Get(w'.lamports, a) == Get(w.lamports, a)
  {
    var data := Removed(w.state, body).value;
    MoveConserves(w.lamports, env.statePda, metas[1].key, Get(w.lamports, env.statePda) - env.rent(|data|));
  }

  /** With rent growing in the length, a removal never fails for want of rent: the error the
      handler guards against is unreachable. */
  lemma RemovalNeverLacksRent(env: Env, w: World, metas: seq<Meta>, body: seq<Byte>)
    requires WellFormed(w.state) && RentExempt(env, w) && MonotoneRent(env)
    ensures ProcessRemoveSolver(env, w, metas, body) != Err(AccountNotRentExempt)
  {
    if |body| == 32 && Removed(w.state, body).Ok? {
      RemovedRefinesDifference(w.state, body);
      assert env.rent(|Removed(w.state, body).value|) <= env.rent(|w.state|);
    }
  }

  /** A withdrawal never takes the native buffer below its minimum, pays at most the request,
      and conserves lamports. */
  lemma WithdrawalKeepsMinimum(env: Env, w: World, metas: seq<Meta>, body: seq<Byte>)
    requires ProcessWithdrawNativeSol(env, w, metas, body).Ok?
    ensures var l' := ProcessWithdrawNativeSol(env, w, metas, body).value.world.lamports;
      var held, held' := Get(w.lamports, env.nativeBuffer), Get(l', env.nativeBuffer);
      && Total(l') == Total(w.lamports)
      && held' <= held <= held' + U64OfBytes(body)
      && (held >= env.rent(0) ==> held' >= env.rent(0))
      && (held < env.rent(0) ==> held' == held)
      && (metas[3].key != env.nativeBuffer ==>
            held' == held - Min(U64OfBytes(body), if held < env.rent(0) then 0 else held - env.rent(0)))
      && forall a :: a != metas[3].key && a != env.nativeBuffer ==> Get(l', a) == Get(w.lamports, a)
  {
    var held, minimum := Get(w.lamports, env.nativeBuffer), env.rent(0);
    MoveConserves(w.lamports, env.nativeBuffer, metas[3].key, Min(U64OfBytes(body), Surplus(held, minimum)));
  }

  // ---------------------------------------------------------------------------------------
  // When each handler succeeds, and what it then writes
  // ---------------------------------------------------------------------------------------

  /** Only the state bytes and the lamports changed. */
  ghost predicate OnlyStateWritten(w: World, w': World)
  {
    w' == w.(state := w'.state, lamports := w'.lamports)
  }

  lemma RequireSolverAuthorityExact(env: Env, w: World, authority: Meta, statePda: Address)
    ensures RequireSolverAuthority(env, w, authority, statePda).Ok? <==> SignsAs(env, w, authority, statePda, 33)
  {}

  /** The solver is on the list now, the header is as it was, and the missing rent was paid. */
  ghost predicate SolverJoins(env: Env, w: World, payer: Address, solver: Address, w': World)
  {
    && OnlyStateWritten(w, w') && WellFormed(w.state) && WellFormed(w'.state) && w'.state[..129] == w.state[..129]
    && SolverSet(w'.state) == SolverSet(w.state) + {solver}
    && OrderHandlers.Funded(w.lamports, payer, env.statePda, env.rent(|w.state| + 32), w'.lamports)
  }

  /** AddSolver succeeds exactly when the solver authority signs, the solver is not on the list and
      the larger account can be funded; it then puts the solver on the list. */
  lemma AddSolverExact(env: Env, w: World, metas: seq<Meta>, body: seq<Byte>)
    requires WellFormed(w.state)
    ensures var r := ProcessAddSolver(env, w, metas, body);
      && (r.Ok? <==> |body| == 32 && |metas| >= 4 && SignsAs(env, w, metas[0], metas[2].key, 33)
                     && body !in SolverSet(w.state)
                     && OrderHandlers.CanFund(env, w, metas[1], env.statePda, env.rent(|w.state| + 32)))
      && (r.Ok? ==> SolverJoins(env, w, metas[1].key, body, r.value.world)
                    && r.value.events == [SolverAdded(body, Signers(metas))])
  {
    if |body| == 32 && |metas| >= 4 {
      RequireSolverAuthorityExact(env, w, metas[0], metas[2].key);
      AddedIn(env, w, metas[1], body);
    }
  }

  lemma AddedIn(env: Env, w: World, payer: Meta, solver: Address)
    requires WellFormed(w.state)
    ensures var l, data := OrderHandlers.TopUp(env, w, payer, env.statePda, env.rent(|w.state| + WIDTH)), Added(w.state, solver);
      && (l.Ok? <==> OrderHandlers.CanFund(env, w, payer, env.statePda, env.rent(|w.state| + 32)))
      && (data.Ok? <==> solver !in SolverSet(w.state))
      && (l.Ok? && data.Ok? ==> SolverJoins(env, w, payer.key, solver, w.(state := data.value, lamports := l.value)))
  {
    OrderHandlers.TopUpExact(env, w, payer, env.statePda, env.rent(|w.state| + WIDTH));
    AddedRefinesUnion(w.state, solver);
  }

  /** `amount` lamports went from one account to the other, and nothing else. */
  ghost predicate Paid(l: Lamports, from: Address, to: Address, amount: nat, l': Lamports)
  {
    && (from == to ==> l' == l)
    && (from != to ==> Get(l', from) + amount == Get(l, from) && Get(l', to) == Get(l, to) + amount)
    && forall a :: a != from && a != to ==> Get(l', a) == Get(l, a)
  }

  /** The solver is off the list, the header is as it was, and what the account holds above its new
      minimum is with the recipient. */
  ghost predicate SolverLeaves(env: Env, w: World, recipient: Address, solver: Address, w': World)
  {
    var held := Get(w.lamports, env.statePda);
    && OnlyStateWritten(w, w') && WellFormed(w.state) && WellFormed(w'.state) && w'.state[..129] == w.state[..129]
    && SolverSet(w'.state) == SolverSet(w.state) - {solver}
    && |w.state| >= 161 && held >= env.rent(|w.state| - 32)
    && Paid(w.lamports, env.statePda, recipient, held - env.rent(|w.state| - 32), w'.lamports)
  }

  /** The account holds its smaller minimum, and the recipient has room for the rest. */
  ghost predicate CanRefund(env: Env, w: World, recipient: Address)
  {
    var held := Get(w.lamports, env.statePda);
    && |w.state| >= 161 && held >= env.rent(|w.state| - 32)
    && (recipient == env.statePda || Get(w.lamports, recipient) + held - env.rent(|w.state| - 32) <= U64_MAX)
  }

  /** RemoveSolver succeeds exactly when the solver authority signs, the solver is on the list and the
      rent no longer needed can be refunded; it then takes the solver off the list. */
  lemma RemoveSolverExact(env: Env, w: World, metas: seq<Meta>, body: seq<Byte>)
    requires WellFormed(w.state)
    ensures var r := ProcessRemoveSolver(env, w, metas, body);
      && (r.Ok? <==> |body| == 32 && |metas| >= 3 && SignsAs(env, w, metas[0], metas[2].key, 33)
                     && body in SolverSet(w.state) && CanRefund(env, w, metas[1].key))
      && (r.Ok? ==> SolverLeaves(env, w, metas[1].key, body, r.value.world)
                    && r.value.events == [SolverRemoved(body, Signers(metas))])
  {
    if |body| == 32 && |metas| >= 3 {
      RequireSolverAuthorityExact(env, w, metas[0], metas[2].key);
      RemovedRefinesDifference(w.state, body);
      if body in SolverSet(w.state) {
        RemovedOut(env, w, metas[1].key, body, Removed(w.state, body).value);
      }
    }
  }

  lemma RemovedOut(env: Env, w: World, recipient: Address, solver: Address, data: seq<Byte>)
    requires WellFormed(w.state) && Removed(w.state, solver) == Ok(data) && |data| + 32 == |w.state|
    ensures var held, minimum := Get(w.lamports, env.statePda), env.rent(|data|);
      var l := MoveLamports(w.lamports, env.statePda, recipient, if held < minimum then 0 else held - minimum);
      && (held >= minimum && l.Ok? <==> CanRefund(env, w, recipient))
      && (held >= minimum && l.Ok? ==>
            SolverLeaves(env, w, recipient, solver, w.(state := data, lamports := l.value)))
  {
    RemovedRefinesDifference(w.state, solver);
  }

  /** TransferAuthority succeeds exactly when the data is a selector below four and a key, and the
      signer is the manager or the holder of the selected role. It then writes the key into slot
      `body[0]` of the header and changes no other byte of any account. */
  lemma TransferAuthorityExact(env: Env, w: World, metas: seq<Meta>, body: seq<Byte>)
    ensures var r := ProcessTransferAuthority(env, w, metas, body);
      r.Ok? <==> |body| == 33 && body[0] < 4 && |metas| >= 2
                 && (SignsAs(env, w, metas[0], metas[1].key, 1)
                     || SignsAs(env, w, metas[0], metas[1].key, 1 + 32 * body[0]))
    ensures var r := ProcessTransferAuthority(env, w, metas, body);
      r.Ok? ==>
        var w' := r.value.world;
        && w' == w.(state := w'.state) && |w'.state| == |w.state|
        && w'.state[1 + 32 * body[0]..33 + 32 * body[0]] == body[1..33]
        && (forall i :: 0 <= i < |w.state| && !(1 + 32 * body[0] <= i < 33 + 32 * body[0]) ==> w'.state[i] == w.state[i])
        && r.value.events == [RoleGiven([Manager, SolverAuthority, ReclaimAuthority,
                                         SettlementOwnedOrderAuthority][body[0]], body[1..33], Signers(metas))]
  {}

  /** WithdrawNativeSol succeeds exactly when the settlement-owned-order authority signs, the native
      buffer is given and the recipient has room. It then pays the request, capped at what the buffer
      holds above its rent minimum, and changes nothing else. */
  lemma WithdrawExact(env: Env, w: World, metas: seq<Meta>, body: seq<Byte>)
    ensures var r, held := ProcessWithdrawNativeSol(env, w, metas, body), Get(w.lamports, env.nativeBuffer);
      var spare := if held < env.rent(0) then 0 else held - env.rent(0);
      && (r.Ok? <==> |body| == 8 && |metas| >= 4 && SignsAs(env, w, metas[1], metas[0].key, 97)
                     && metas[2].key == env.nativeBuffer
                     && (metas[3].key == env.nativeBuffer
                         || Get(w.lamports, metas[3].key) + Min(U64OfBytes(body), spare) <= U64_MAX))
      && (r.Ok? ==>
            var w' := r.value.world;
            && w' == w.(lamports := w'.lamports) && r.value.events == []
            && Paid(w.lamports, env.nativeBuffer, metas[3].key, Min(U64OfBytes(body), spare), w'.lamports))
  {}
}
