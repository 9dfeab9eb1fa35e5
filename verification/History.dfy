/** Histories of transactions refine the abstract order book: every instruction of every
    committed transaction is a run of legal events, and failed transactions change nothing. */
module Histories {
  import opened Basics
  import opened Intent
  import opened SettleWire
  import opened Worlds
  import opened Settle
  import opened Transactions
  import opened Lifecycle
  import opened StateAccounts
  import OrderHandlers
  import AdminHandlers
  import BufferHandlers

  ghost function RolesOf(state: seq<Byte>): (m: map<Role, Address>)
    requires |state| >= HEADER
    ensures forall role: Role :: role in m && m[role] == Authority(state, role)
  {
    map role: Role | role.Manager? || role.SolverAuthority? || role.ReclaimAuthority?
                     || role.SettlementOwnedOrderAuthority? :: Authority(state, role)
  }

  /** The abstract book a world stands for. */
  ghost function BookOf(w: World): (book: Book)
    requires WellFormed(w.state)
    ensures HasRoles(book)
  {
    Book(w.orders, RolesOf(w.state), SolverSet(w.state))
  }

  function Stamp(now: int, events: seq<Event>): (run: seq<Stamped>)
    ensures |run| == |events|
  {
    seq(|events|, k requires 0 <= k < |events| => Stamped(now, events[k]))
  }

  lemma StampAppend(now: int, x: seq<Event>, y: seq<Event>)
    ensures Stamp(now, x + y) == Stamp(now, x) + Stamp(now, y)
  {}

  /** The outcome's events are a legal run from the book before to the book after, and the state
      account stays well-formed. */
  ghost predicate Refines(env: Env, w: World, run: seq<Stamped>, w': World)
    requires WellFormed(w.state)
  {
    && WellFormed(w'.state)
    && LegalRun(env, BookOf(w), run)
    && BookOf(w') == Replay(BookOf(w), run)
  }

  lemma RefinesCompose(env: Env, w: World, x: seq<Stamped>, w1: World, y: seq<Stamped>, w2: World)
    requires WellFormed(w.state) && Refines(env, w, x, w1) && Refines(env, w1, y, w2)
    ensures Refines(env, w, x + y, w2)
  {
    RunsCompose(env, BookOf(w), x, y);
  }

  /** A step with no events must leave the book alone. */
  lemma NoEvents(env: Env, w: World, w': World)
    requires WellFormed(w.state) && w'.orders == w.orders && w'.state == w.state
    ensures Refines(env, w, [], w')
  {}

  /** A one-event step. */
  lemma OneEvent(env: Env, now: int, w: World, e: Event, w': World)
    requires WellFormed(w.state) && WellFormed(w'.state)
    requires Legal(env, now, BookOf(w), e) && BookOf(w') == Apply(BookOf(w), e)
    ensures Refines(env, w, Stamp(now, [e]), w')
  {
    assert Stamp(now, [e]) == [Stamped(now, e)];
    assert [Stamped(now, e)][1..] == [];
  }

  // ---------------------------------------------------------------------------------------
  // Orders
  // ---------------------------------------------------------------------------------------

  lemma NewOrderRefines(env: Env, now: int, w: World, pda: Address, intentBytes: seq<Byte>, expectedOwner: Address,
                        createdBy: Meta, cancelled: bool, signers: set<Address>)
    requires WellFormed(w.state) && |intentBytes| == INTENT_SIZE
    requires expectedOwner in signers
      || (expectedOwner == env.statePda && OrderHandlers.OrderAuthority(w) in signers)
    ensures var r := OrderHandlers.NewOrder(env, w, pda, intentBytes, expectedOwner, createdBy, cancelled, signers);
      r.Ok? ==> Refines(env, w, Stamp(now, r.value.events), r.value.world)
  {
    var r := OrderHandlers.NewOrder(env, w, pda, intentBytes, expectedOwner, createdBy, cancelled, signers);
    if r.Ok? {
      OneEvent(env, now, w, r.value.events[0], r.value.world);
      assert r.value.events == [r.value.events[0]];
    }
  }

  lemma SignerListed(metas: seq<Meta>, i: nat)
    requires i < |metas| && metas[i].signer
    ensures metas[i].key in Signers(metas)
  {}

  lemma CreateRefines(env: Env, now: int, w: World, metas: seq<Meta>, body: seq<Byte>)
    requires WellFormed(w.state)
    ensures var r := OrderHandlers.ProcessCreateOrder(env, w, metas, body);
      r.Ok? ==> Refines(env, w, Stamp(now, r.value.events), r.value.world)
  {
    if OrderHandlers.ProcessCreateOrder(env, w, metas, body).Ok? {
      SignerListed(metas, 0);
      NewOrderRefines(env, now, w, metas[2].key, body, metas[0].key, metas[1], false, Signers(metas));
    }
  }

  lemma CreateOwnedRefines(env: Env, now: int, w: World, metas: seq<Meta>, body: seq<Byte>)
    requires WellFormed(w.state)
    ensures var r := OrderHandlers.ProcessCreateSettlementOwnedOrder(env, w, metas, body);
      r.Ok? ==> Refines(env, w, Stamp(now, r.value.events), r.value.world)
  {
    if OrderHandlers.ProcessCreateSettlementOwnedOrder(env, w, metas, body).Ok? {
      SignerListed(metas, 0);
      NewOrderRefines(env, now, w, metas[3].key, body, env.statePda, metas[1], false, Signers(metas));
    }
  }

  lemma CancelRefines(env: Env, now: int, w: World, metas: seq<Meta>, body: seq<Byte>)
    requires WellFormed(w.state)
    ensures var r := OrderHandlers.ProcessCancelOrder(env, w, metas, body);
      r.Ok? ==> Refines(env, w, Stamp(now, r.value.events), r.value.world)
  {
    var r := OrderHandlers.ProcessCancelOrder(env, w, metas, body);
    if r.Ok? {
      SignerListed(metas, 0);
      if ProgramOwned(env, w, metas[2].key) {
        var e := Cancelled(metas[2].key, Signers(metas), OrderHandlers.AuthorityLabel(w));
        assert r.value.events == [e];
        OneEvent(env, now, w, e, r.value.world);
      } else {
        var owner := if body[0..32] == env.statePda then env.statePda else metas[0].key;
        NewOrderRefines(env, now, w, metas[2].key, body, owner, metas[1], true, Signers(metas));
      }
    }
  }

  lemma ReclaimRefines(env: Env, now: int, w: World, metas: seq<Meta>, body: seq<Byte>)
    requires WellFormed(w.state)
    ensures var r := OrderHandlers.ProcessReclaimOrder(env, now, w, metas, body);
      r.Ok? ==> Refines(env, w, Stamp(now, r.value.events), r.value.world)
  {
    var r := OrderHandlers.ProcessReclaimOrder(env, now, w, metas, body);
    if r.Ok? {
      if |metas| > 2 && metas[2].signer {
        SignerListed(metas, 2);
      }
      var e := Reclaimed(metas[0].key, Signers(metas));
      assert r.value.events == [e];
      OneEvent(env, now, w, e, r.value.world);
    }
  }

  // ---------------------------------------------------------------------------------------
  // Settlement
  // ---------------------------------------------------------------------------------------

  lemma ProcessOrderRefines(env: Env, now: int, w: World, o: SettledOrder<Meta>, push: PairedPush)
    requires |env.buffers.known| < 255 && WellFormed(w.state)
    ensures var r := ProcessOrder(env, now, w, o, push);
      r.Ok? ==> Refines(env, w, Stamp(now, r.value.events), r.value.world)
  {
    var r := ProcessOrder(env, now, w, o, push);
    if r.Ok? {
      assert r.value.events == [r.value.events[0]];
      OneEvent(env, now, w, r.value.events[0], r.value.world);
    }
  }

  lemma {:induction false} SettleOrdersRefines(env: Env, now: int, w: World, orders: seq<SettledOrder<Meta>>,
                                               pushes: seq<PairedPush>, previous: Option<Address>)
    requires |env.buffers.known| < 255 && WellFormed(w.state)
    ensures var r := SettleOrders(env, now, w, orders, pushes, previous);
      r.Ok? ==> Refines(env, w, Stamp(now, r.value.events), r.value.world)
    decreases |orders|
  {
    var r := SettleOrders(env, now, w, orders, pushes, previous);
    if r.Ok? && orders != [] {
      var a := orders[0].orderPda.key;
      var first := ProcessOrder(env, now, w, orders[0], pushes[0]).value;
      ProcessOrderRefines(env, now, w, orders[0], pushes[0]);
      SettleOrdersRefines(env, now, first.world, orders[1..], pushes[1..], Some(a));
      var rest := SettleOrders(env, now, first.world, orders[1..], pushes[1..], Some(a)).value;
      StampAppend(now, first.events, rest.events);
      RefinesCompose(env, w, Stamp(now, first.events), first.world, Stamp(now, rest.events), rest.world);
    }
  }

  lemma BeginRefines(env: Env, now: int, cpi: bool, ixs: seq<Ix>, i: nat, ix: Ix, w: World)
    requires |env.buffers.known| < 255 && WellFormed(w.state)
    ensures var r := ProcessBegin(env, now, cpi, ixs, i, ix, w);
      r.Ok? ==> Refines(env, w, Stamp(now, r.value.events), r.value.world)
  {
    var r := ProcessBegin(env, now, cpi, ixs, i, ix, w);
    if r.Ok? {
      var input := ParseBegin(ix.data, ix.metas).value;
      var pushes := PairedPushes(env, ixs, i, input.finalizeIx).value;
      var orders := SplitOrders(input.orders);
      var settled := SettleOrders(env, now, w, orders, pushes, None).value;
      SettleOrdersRefines(env, now, w, orders, pushes, None);
      IsSolverIsMembership(w.state, input.solver.key);
      var begun := [Begun(input.solver.key, Signers(ix.metas))];
      SignerListed(ix.metas, 0);
      OneEvent(env, now, w, begun[0], w);
      StampAppend(now, begun, settled.events);
      RefinesCompose(env, w, Stamp(now, begun), w, Stamp(now, settled.events), settled.world);
    }
  }

  // ---------------------------------------------------------------------------------------
  // Administration
  // ---------------------------------------------------------------------------------------

  lemma SameHeaderSameRoles(x: seq<Byte>, y: seq<Byte>)
    requires |x| >= HEADER && |y| >= HEADER && x[..HEADER] == y[..HEADER]
    ensures RolesOf(x) == RolesOf(y)
  {
    forall role: Role ensures Authority(x, role) == Authority(y, role) {
      HeaderNamesRoles(x, y, role);
    }
  }

  lemma AddSolverRefines(env: Env, now: int, w: World, metas: seq<Meta>, body: seq<Byte>)
    requires WellFormed(w.state)
    ensures var r := AdminHandlers.ProcessAddSolver(env, w, metas, body);
      r.Ok? ==> Refines(env, w, Stamp(now, r.value.events), r.value.world)
  {
    var r := AdminHandlers.ProcessAddSolver(env, w, metas, body);
    if r.Ok? {
      SignerListed(metas, 0);
      AddedRefinesUnion(w.state, body);
      SameHeaderSameRoles(w.state, r.value.world.state);
      var e := SolverAdded(body, Signers(metas));
      assert r.value.events == [e];
      OneEvent(env, now, w, e, r.value.world);
    }
  }

  lemma RemoveSolverRefines(env: Env, now: int, w: World, metas: seq<Meta>, body: seq<Byte>)
    requires WellFormed(w.state)
    ensures var r := AdminHandlers.ProcessRemoveSolver(env, w, metas, body);
      r.Ok? ==> Refines(env, w, Stamp(now, r.value.events), r.value.world)
  {
    var r := AdminHandlers.ProcessRemoveSolver(env, w, metas, body);
    if r.Ok? {
      SignerListed(metas, 0);
      RemovedRefinesDifference(w.state, body);
      SameHeaderSameRoles(w.state, r.value.world.state);
      var e := SolverRemoved(body, Signers(metas));
      assert r.value.events == [e];
      OneEvent(env, now, w, e, r.value.world);
    }
  }

  lemma TransferAuthorityRefines(env: Env, now: int, w: World, metas: seq<Meta>, body: seq<Byte>)
    requires WellFormed(w.state)
    ensures var r := AdminHandlers.ProcessTransferAuthority(env, w, metas, body);
      r.Ok? ==> Refines(env, w, Stamp(now, r.value.events), r.value.world)
  {
    var r := AdminHandlers.ProcessTransferAuthority(env, w, metas, body);
    if r.Ok? {
      SignerListed(metas, 0);
      var role := AdminHandlers.RoleOf(body[0]).value;
      SetAuthorityFrame(w.state, role, body[1..33]);
      var e := RoleGiven(role, body[1..33], Signers(metas));
      assert r.value.events == [e];
      assert RolesOf(r.value.world.state) == RolesOf(w.state)[role := body[1..33]];
      OneEvent(env, now, w, e, r.value.world);
    }
  }

  // ---------------------------------------------------------------------------------------
  // Instructions, transactions, histories
  // ---------------------------------------------------------------------------------------

  lemma DispatchRefines(env: Env, now: int, cpi: bool, ixs: seq<Ix>, i: nat, ix: Ix, w: World)
    requires |env.buffers.known| < 255 && WellFormed(w.state)
    ensures var r := Dispatch(env, now, cpi, ixs, i, ix, w);
      r.Ok? ==> Refines(env, w, Stamp(now, r.value.events), r.value.world)
  {
    var r := Dispatch(env, now, cpi, ixs, i, ix, w);
    if r.Ok? {
      var (kind, body) := RecoverDiscriminator(ix.data).value;
      match kind
      case BeginSettle => BeginRefines(env, now, cpi, ixs, i, ix, w);
      case FinalizeSettle => NoEvents(env, w, r.value.world);
      case CreateOrder => CreateRefines(env, now, w, ix.metas, body);
      case CreateBuffer => NoEvents(env, w, r.value.world);
      case ReclaimOrder => ReclaimRefines(env, now, w, ix.metas, body);
      case ReclaimBuffer =>
        BufferHandlers.ReclaimBufferEffect(env, w, ix.metas, body);
        NoEvents(env, w, r.value.world);
      case TransferAuthority => TransferAuthorityRefines(env, now, w, ix.metas, body);
      case AddSolver => AddSolverRefines(env, now, w, ix.metas, body);
      case RemoveSolver => RemoveSolverRefines(env, now, w, ix.metas, body);
      case CreateSettlementOwnedOrder => CreateOwnedRefines(env, now, w, ix.metas, body);
      case CancelOrder => CancelRefines(env, now, w, ix.metas, body);
      case WithdrawNativeSol => NoEvents(env, w, r.value.world);
      case _ =>
    }
  }

  lemma ActRefines(env: Env, now: int, ixs: seq<Ix>, i: nat, act: Act, w: World)
    requires |env.buffers.known| < 255 && WellFormed(w.state)
    ensures var r := DoAct(env, now, ixs, i, act, w);
      r.Ok? ==> Refines(env, w, Stamp(now, r.value.events), r.value.world)
  {
    if act.Call? && act.ix.programId == env.programId {
      DispatchRefines(env, now, true, ixs, i, act.ix, w);
    } else if DoAct(env, now, ixs, i, act, w).Ok? {
      NoEvents(env, w, DoAct(env, now, ixs, i, act, w).value.world);
    }
  }

  lemma {:induction false} ActsRefine(env: Env, now: int, ixs: seq<Ix>, i: nat, acts: seq<Act>, w: World)
    requires |env.buffers.known| < 255 && WellFormed(w.state)
    ensures var r := DoActs(env, now, ixs, i, acts, w);
      r.Ok? ==> Refines(env, w, Stamp(now, r.value.events), r.value.world)
    decreases |acts|
  {
    if DoActs(env, now, ixs, i, acts, w).Ok? && acts != [] {
      var first := DoAct(env, now, ixs, i, acts[0], w).value;
      ActRefines(env, now, ixs, i, acts[0], w);
      ActsRefine(env, now, ixs, i, acts[1..], first.world);
      var rest := DoActs(env, now, ixs, i, acts[1..], first.world).value;
      StampAppend(now, first.events, rest.events);
      RefinesCompose(env, w, Stamp(now, first.events), first.world, Stamp(now, rest.events), rest.world);
    }
  }

  lemma ExecRefines(env: Env, now: int, ixs: seq<Ix>, i: nat, op: Op, w: World)
    requires |env.buffers.known| < 255 && WellFormed(w.state)
    ensures var r := Exec(env, now, ixs, i, op, w);
      r.Ok? ==> Refines(env, w, Stamp(now, r.value.events), r.value.world)
  {
    if IsOpaque(env, op.ix) {
      ActsRefine(env, now, ixs, i, op.acts, w);
    } else {
      DispatchRefines(env, now, false, ixs, i, op.ix, w);
    }
  }

  lemma {:induction false} TransactionRefines(env: Env, now: int, tx: Tx, w: World, k: nat)
    requires |env.buffers.known| < 255 && WellFormed(w.state) && k <= |tx|
    ensures var r := RunFrom(env, now, tx, w, k);
      r.Ok? ==> Refines(env, w, Stamp(now, r.value.events), r.value.world)
    decreases |tx| - k
  {
    if RunFrom(env, now, tx, w, k).Ok? && k < |tx| {
      var first := Exec(env, now, Ixs(tx), k, tx[k], w).value;
      ExecRefines(env, now, Ixs(tx), k, tx[k], w);
      TransactionRefines(env, now, tx, first.world, k + 1);
      var rest := RunFrom(env, now, tx, first.world, k + 1).value;
      StampAppend(now, first.events, rest.events);
      RefinesCompose(env, w, Stamp(now, first.events), first.world, Stamp(now, rest.events), rest.world);
    }
  }

  /** A transaction attempted at some time. */
  datatype Attempt = Attempt(now: int, tx: Tx)

  /** Commit, or roll back and leave no trace. */
  function Commit(env: Env, w: World, attempt: Attempt): (r: Outcome)
    requires |env.buffers.known| < 255
  {
    match RunTx(env, attempt.now, attempt.tx, w)
    case Ok(outcome) => outcome
    case Err(_) => Outcome(w, [])
  }

  function RunHistory(env: Env, w: World, history: seq<Attempt>): (r: (World, seq<Stamped>))
    requires |env.buffers.known| < 255
    decreases |history|
  {
    if history == [] then (w, []) else
    var first := Commit(env, w, history[0]);
    var rest := RunHistory(env, first.world, history[1..]);
    (rest.0, Stamp(history[0].now, first.events) + rest.1)
  }

  /** Every history is a legal run of the abstract book, and the final accounts stand for the
      replayed book: in particular the solver bytes are whole, sorted and duplicate-free, and
      hold exactly the solvers added and not since removed. */
  lemma {:induction false} HistoryRefines(env: Env, w: World, history: seq<Attempt>)
    requires |env.buffers.known| < 255 && WellFormed(w.state)
    ensures var (w', run) := RunHistory(env, w, history); Refines(env, w, run, w')
    decreases |history|
  {
    if history == [] {
      NoEvents(env, w, w);
    } else {
      var attempt := history[0];
      TransactionRefines(env, attempt.now, attempt.tx, w, 0);
      var first := Commit(env, w, attempt);
      if RunTx(env, attempt.now, attempt.tx, w).Err? {
        NoEvents(env, w, w);
      }
      HistoryRefines(env, first.world, history[1..]);
      var rest := RunHistory(env, first.world, history[1..]);
      RefinesCompose(env, w, Stamp(attempt.now, first.events), first.world, rest.1, rest.0);
    }
  }

  ghost predicate ClockAdvances(now: int, history: seq<Attempt>)
  {
    && (forall k :: 0 <= k < |history| ==> now <= history[k].now)
    && (forall j, k :: 0 <= j < k < |history| ==> history[j].now <= history[k].now)
  }

  lemma {:induction false} HistoryClock(env: Env, w: World, history: seq<Attempt>, now: int)
    requires |env.buffers.known| < 255 && ClockAdvances(now, history)
    ensures ClockFrom(now, RunHistory(env, w, history).1)
    decreases |history|
  {
    if history != [] {
      var first := Commit(env, w, history[0]);
      assert ClockAdvances(history[0].now, history[1..]) by {
        assert forall k :: 0 <= k < |history[1..]| ==> history[1..][k] == history[k + 1];
      }
      HistoryClock(env, first.world, history[1..], history[0].now);
    }
  }

  // ---------------------------------------------------------------------------------------
  // The promises, over every history of transactions
  // ---------------------------------------------------------------------------------------

  /** Every order account reachable by any history is within its limits and never oversold. */
  lemma ReachableOrdersWithinLimits(env: Env, w: World, history: seq<Attempt>)
    requires |env.buffers.known| < 255 && WellFormed(w.state) && OrdersOk(env, w.orders)
    ensures var w' := RunHistory(env, w, history).0;
      OrdersOk(env, w'.orders) && forall a :: a in w'.orders ==>
        w'.orders[a].withdrawn <= w'.orders[a].intent.sellAmount
  {
    HistoryRefines(env, w, history);
    AccountsStayWithinLimits(env, BookOf(w), RunHistory(env, w, history).1);
  }

  /** A cancellation below the amount survives every history: no transaction at a later time
      settles that order again unless its owner signed a reclaim of it. Nor is an expired order
      ever settled again. */
  lemma CancelledOrderStaysDead(env: Env, w: World, history: seq<Attempt>, a: Address, now: int)
    requires |env.buffers.known| < 255 && WellFormed(w.state) && OrdersOk(env, w.orders)
    requires a in w.orders && OnlyIntent(env, a, w.orders[a].intent)
    requires CancelledBelow(w.orders, a) || now > w.orders[a].intent.validTo
    requires ClockAdvances(now, history)
    requires !ReclaimedByOwner(RunHistory(env, w, history).1, a, w.orders[a].intent.owner)
    ensures !Settles(RunHistory(env, w, history).1, a)
  {
    HistoryRefines(env, w, history);
    HistoryClock(env, w, history, now);
    CancellationIsFinal(env, BookOf(w), RunHistory(env, w, history).1, a, w.orders[a].intent, now);
  }

  lemma RefinedKeeps(env: Env, w: World, run: seq<Stamped>, w': World)
    requires WellFormed(w.state) && OrdersOk(env, w.orders) && Refines(env, w, run, w')
    ensures WellFormed(w'.state) && OrdersOk(env, w'.orders)
  {
    AccountsStayWithinLimits(env, BookOf(w), run);
  }

  lemma StepKeeps(env: Env, now: int, tx: Tx, ws: seq<World>, k: nat)
    requires Committed(env, now, tx, ws) && k < |tx| && WellFormed(ws[k].state) && OrdersOk(env, ws[k].orders)
    ensures WellFormed(ws[k + 1].state) && OrdersOk(env, ws[k + 1].orders)
  {
    assert StepAt(env, now, tx, ws, k);
    ExecRefines(env, now, Ixs(tx), k, tx[k], ws[k]);
    RefinedKeeps(env, ws[k], Stamp(now, Exec(env, now, Ixs(tx), k, tx[k], ws[k]).value.events), ws[k + 1]);
  }

  /** The accounts stay whole along a committed transaction. */
  lemma {:induction false} TraceKeeps(env: Env, now: int, tx: Tx, ws: seq<World>, k: nat)
    requires Committed(env, now, tx, ws) && k <= |tx| && WellFormed(ws[0].state) && OrdersOk(env, ws[0].orders)
    ensures WellFormed(ws[k].state) && OrdersOk(env, ws[k].orders)
  {
    if k > 0 {
      TraceKeeps(env, now, tx, ws, k - 1);
      StepKeeps(env, now, tx, ws, k - 1);
    }
  }

  /** What happens after instruction `k` of a committed transaction: its remaining instructions, and
      then a history of further transactions. */
  ghost function Later(env: Env, now: int, tx: Tx, ws: seq<World>, k: nat, history: seq<Attempt>): (run: seq<Stamped>)
    requires Committed(env, now, tx, ws) && k < |tx|
  {
    CommittedRuns(env, now, tx, ws, k + 1);
    Stamp(now, RunFrom(env, now, tx, ws[k + 1], k + 1).value.events) + RunHistory(env, ws[|tx|], history).1
  }

  lemma LaterRefines(env: Env, now: int, tx: Tx, ws: seq<World>, k: nat, history: seq<Attempt>)
    requires Committed(env, now, tx, ws) && k < |tx| && WellFormed(ws[k + 1].state) && ClockAdvances(now, history)
    ensures LegalRun(env, BookOf(ws[k + 1]), Later(env, now, tx, ws, k, history))
    ensures ClockFrom(now, Later(env, now, tx, ws, k, history))
  {
    CommittedRuns(env, now, tx, ws, k + 1);
    TransactionRefines(env, now, tx, ws[k + 1], k + 1);
    HistoryRefines(env, ws[|tx|], history);
    HistoryClock(env, ws[|tx|], history, now);
    RefinesCompose(env, ws[k + 1], Stamp(now, RunFrom(env, now, tx, ws[k + 1], k + 1).value.events), ws[|tx|],
                   RunHistory(env, ws[|tx|], history).1, RunHistory(env, ws[|tx|], history).0);
  }

  /** The instruction is this program's CancelOrder, naming the order at `a`. */
  ghost predicate CancelsOrder(env: Env, ix: Ix, a: Address)
  {
    && ix.programId == env.programId && |ix.data| > 0 && ix.data[0] == 11
    && |ix.metas| >= 4 && ix.metas[2].key == a
  }

  /** A committed CancelOrder stores the cancellation. */
  lemma CommittedCancel(env: Env, now: int, tx: Tx, ws: seq<World>, k: nat, a: Address)
    requires Committed(env, now, tx, ws) && k < |tx| && CancelsOrder(env, tx[k].ix, a)
    ensures a in ws[k + 1].orders && ws[k + 1].orders[a].cancelled
    ensures a in ws[k].orders ==> ws[k + 1].orders[a] == ws[k].orders[a].(cancelled := true)
    ensures a !in ws[k].orders ==> CancelledBelow(ws[k + 1].orders, a)
  {
    var ix := tx[k].ix;
    assert StepAt(env, now, tx, ws, k);
    DiscriminatorBytes(ix.data);
    DispatchTable(env, now, false, Ixs(tx), k, ix, ws[k]);
    OrderHandlers.CancelCancels(env, ws[k], ix.metas, ix.data[1..]);
  }

  /** Once a CancelOrder of an order below its amount, stored or not, is committed, nothing later settles
      that order unless its owner signed a reclaim of it. */
  lemma CancelledForGood(env: Env, now: int, tx: Tx, ws: seq<World>, k: nat, a: Address, intent: OrderIntent,
                         history: seq<Attempt>)
    requires Committed(env, now, tx, ws) && WellFormed(ws[0].state) && OrdersOk(env, ws[0].orders)
    requires k < |tx| && CancelsOrder(env, tx[k].ix, a) && OnlyIntent(env, a, intent) && ClockAdvances(now, history)
    requires a in ws[k].orders ==>
      var b := ws[k].orders[a]; if b.intent.flags.kind.Sell? then b.withdrawn < b.intent.sellAmount
                                else b.received < b.intent.buyAmount
    requires !ReclaimedByOwner(Later(env, now, tx, ws, k, history), a, intent.owner)
    ensures !Settles(Later(env, now, tx, ws, k, history), a)
  {
    TraceKeeps(env, now, tx, ws, k + 1);
    CommittedCancel(env, now, tx, ws, k, a);
    assert CancelledBelow(ws[k + 1].orders, a);
    LaterRefines(env, now, tx, ws, k, history);
    CancellationIsFinal(env, BookOf(ws[k + 1]), Later(env, now, tx, ws, k, history), a, intent, now);
  }

  /** After its expiry no history settles an order. */
  lemma ExpiredNeverSettles(env: Env, w: World, history: seq<Attempt>, a: Address, intent: OrderIntent, now: int)
    requires |env.buffers.known| < 255 && WellFormed(w.state) && OrdersOk(env, w.orders)
    requires OnlyIntent(env, a, intent) && ClockAdvances(now, history) && now > intent.validTo
    ensures !Settles(RunHistory(env, w, history).1, a)
  {
    HistoryRefines(env, w, history);
    HistoryClock(env, w, history, now);
    ExpiredIsFinal(env, BookOf(w), RunHistory(env, w, history).1, a, intent, now);
  }

  /** Over every history, all incarnations of an order together withdraw at most the sell amount
      per live creation and receive at least the limit price. */
  lemma LifetimeBoundsHold(env: Env, w: World, history: seq<Attempt>, a: Address, intent: OrderIntent)
    requires |env.buffers.known| < 255 && WellFormed(w.state) && OrdersOk(env, w.orders)
    requires OnlyIntent(env, a, intent) && a !in w.orders
    ensures var run := RunHistory(env, w, history).1;
      && TotalWithdrawn(run, a) <= intent.sellAmount * LiveCreations(run, a)
      && TotalReceived(run, a) * intent.sellAmount >= TotalWithdrawn(run, a) * intent.buyAmount
  {
    HistoryRefines(env, w, history);
    LifetimeBounds(env, BookOf(w), RunHistory(env, w, history).1, a, intent);
  }

  /** Created live at most once, an order gives at most its sell amount over any history. */
  lemma CreatedOnceGivesOnce(env: Env, w: World, history: seq<Attempt>, a: Address, intent: OrderIntent)
    requires |env.buffers.known| < 255 && WellFormed(w.state) && OrdersOk(env, w.orders)
    requires OnlyIntent(env, a, intent) && a !in w.orders && LiveCreations(RunHistory(env, w, history).1, a) <= 1
    ensures TotalWithdrawn(RunHistory(env, w, history).1, a) <= intent.sellAmount
  {
    LifetimeBoundsHold(env, w, history, a, intent);
    AtMostOnce(intent.sellAmount, LiveCreations(RunHistory(env, w, history).1, a));
  }

  lemma AtMostOnce(amount: nat, n: nat)
    requires n <= 1
    ensures amount * n <= amount
  {
    if n == 0 {
      assert amount * n == 0;
    }
  }

  /** The solvers after a run of events: those added and not since removed. */
  ghost function SolversAfter(solvers: set<Address>, run: seq<Stamped>): (s: set<Address>)
    decreases |run|
  {
    if run == [] then solvers else
    var next := match run[0].event
      case SolverAdded(solver, _) => solvers + {solver}
      case SolverRemoved(solver, _) => solvers - {solver}
      case _ => solvers;
    SolversAfter(next, run[1..])
  }

  lemma {:induction false} ReplayedSolvers(book: Book, run: seq<Stamped>)
    ensures Replay(book, run).solvers == SolversAfter(book.solvers, run)
    decreases |run|
  {
    if run != [] {
      ReplayedSolvers(Apply(book, run[0].event), run[1..]);
    }
  }

  /** Under any interleaving of any instructions, binary search over the solver bytes decides
      membership in the set of solvers added and not since removed, and the list stays whole,
      sorted and free of duplicates. */
  lemma SolverListRefinesSet(env: Env, w: World, history: seq<Attempt>, solver: Address)
    requires |env.buffers.known| < 255 && WellFormed(w.state)
    ensures var (w', run) := RunHistory(env, w, history);
      && WellFormed(w'.state)
      && (IsSolver(w'.state, solver) <==> solver in SolversAfter(SolverSet(w.state), run))
  {
    HistoryRefines(env, w, history);
    var (w', run) := RunHistory(env, w, history);
    ReplayedSolvers(BookOf(w), run);
    IsSolverIsMembership(w'.state, solver);
  }

  /** The holder of a role after a run of events: the last one it was given to. */
  ghost function HolderAfter(holder: Address, run: seq<Stamped>, role: Role): (a: Address)
    decreases |run|
  {
    if run == [] then holder else
    var next := if run[0].event.RoleGiven? && run[0].event.role == role then run[0].event.holder else holder;
    HolderAfter(next, run[1..], role)
  }

  lemma {:induction false} ReplayedRoles(book: Book, run: seq<Stamped>, role: Role)
    requires HasRoles(book)
    ensures Replay(book, run).roles[role] == HolderAfter(book.roles[role], run, role)
    decreases |run|
  {
    if run != [] {
      ReplayedRoles(Apply(book, run[0].event), run[1..], role);
    }
  }

  /** Under any interleaving of any instructions, a role's slot names the last account the role
      was transferred to: changes to the solver list, which move bytes of the same account, never
      alter it. */
  lemma RolesFollowTransfers(env: Env, w: World, history: seq<Attempt>, role: Role)
    requires |env.buffers.known| < 255 && WellFormed(w.state)
    ensures var (w', run) := RunHistory(env, w, history);
      WellFormed(w'.state) && Authority(w'.state, role) == HolderAfter(Authority(w.state, role), run, role)
  {
    HistoryRefines(env, w, history);
    var (w', run) := RunHistory(env, w, history);
    ReplayedRoles(BookOf(w), run, role);
    assert RolesOf(w'.state)[role] == Replay(BookOf(w), run).roles[role];
  }

  /** Every creation of any history was signed by the intent's owner, or for the settlement's own
      orders by the authority holding that role at that moment. */
  lemma EveryCreationInHistoryAuthorised(env: Env, w: World, history: seq<Attempt>, k: nat)
    requires |env.buffers.known| < 255 && WellFormed(w.state)
    requires k < |RunHistory(env, w, history).1| && RunHistory(env, w, history).1[k].event.Created?
    ensures var run := RunHistory(env, w, history).1;
      Authorised(env, run[k].event.body.intent, run[k].event.signers,
                 HolderAfter(Authority(w.state, SettlementOwnedOrderAuthority), run[..k], SettlementOwnedOrderAuthority))
  {
    HistoryRefines(env, w, history);
    var run := RunHistory(env, w, history).1;
    EveryCreationAuthorised(env, BookOf(w), run, k);
    ReplayedRoles(BookOf(w), run[..k], SettlementOwnedOrderAuthority);
  }

  /** In any history a role changes hands only by the signature of the manager or of the role's
      holder at that moment. */
  lemma EveryTransferInHistoryAuthorised(env: Env, w: World, history: seq<Attempt>, k: nat)
    requires |env.buffers.known| < 255 && WellFormed(w.state)
    requires k < |RunHistory(env, w, history).1| && RunHistory(env, w, history).1[k].event.RoleGiven?
    ensures var run := RunHistory(env, w, history).1;
      var role := run[k].event.role;
      || HolderAfter(Authority(w.state, Manager), run[..k], Manager) in run[k].event.signers
      || HolderAfter(Authority(w.state, role), run[..k], role) in run[k].event.signers
  {
    HistoryRefines(env, w, history);
    var run := RunHistory(env, w, history).1;
    EveryTransferAuthorised(env, BookOf(w), run, k);
    ReplayedRoles(BookOf(w), run[..k], Manager);
    ReplayedRoles(BookOf(w), run[..k], run[k].event.role);
  }

  /** The fill at `k` belongs to the begin at `j`: only other fills of it lie between. */
  ghost predicate FillsUnder(run: seq<Stamped>, j: nat, k: nat)
  {
    && j < k < |run| && run[j].event.Begun? && run[k].event.Filled?
    && forall i :: j < i < k ==> run[i].event.Filled?
  }

  ghost predicate EveryFillBegun(run: seq<Stamped>)
  {
    forall k :: 0 <= k < |run| && run[k].event.Filled? ==> exists j :: FillsUnder(run, j, k)
  }

  lemma FillsBegunCompose(x: seq<Stamped>, y: seq<Stamped>)
    requires EveryFillBegun(x) && EveryFillBegun(y)
    ensures EveryFillBegun(x + y)
  {
    var run := x + y;
    forall k | 0 <= k < |run| && run[k].event.Filled? ensures exists j :: FillsUnder(run, j, k) {
      if k < |x| {
        var j :| FillsUnder(x, j, k);
        assert FillsUnder(run, j, k);
      } else {
        var j :| FillsUnder(y, j, k - |x|);
        forall i | |x| + j < i < k ensures run[i].event.Filled? {
          assert run[i] == y[i - |x|];
        }
        assert FillsUnder(run, |x| + j, k);
      }
    }
  }

  lemma {:induction false} BatchOnlyFills(env: Env, now: int, w: World, orders: seq<SettledOrder<Meta>>,
                                          pushes: seq<PairedPush>, previous: Option<Address>)
    requires |env.buffers.known| < 255 && SettleOrders(env, now, w, orders, pushes, previous).Ok?
    ensures forall e :: e in SettleOrders(env, now, w, orders, pushes, previous).value.events ==> e.Filled?
    decreases |orders|
  {
    if orders != [] {
      var first := ProcessOrder(env, now, w, orders[0], pushes[0]).value;
      BatchOnlyFills(env, now, first.world, orders[1..], pushes[1..], Some(orders[0].orderPda.key));
    }
  }

  lemma FillsAfterBegun(now: int, begun: Event, fills: seq<Event>)
    requires begun.Begun? && forall e :: e in fills ==> e.Filled?
    ensures EveryFillBegun(Stamp(now, [begun] + fills))
  {
    var run := Stamp(now, [begun] + fills);
    forall k | 0 < k < |run| ensures run[k].event.Filled? {
      assert run[k].event == fills[k - 1] && fills[k - 1] in fills;
    }
    forall k | 0 <= k < |run| && run[k].event.Filled? ensures exists j :: FillsUnder(run, j, k) {
      assert FillsUnder(run, 0, k);
    }
  }

  lemma BeginFillsBegun(env: Env, now: int, cpi: bool, ixs: seq<Ix>, i: nat, ix: Ix, w: World)
    requires |env.buffers.known| < 255 && ProcessBegin(env, now, cpi, ixs, i, ix, w).Ok?
    ensures EveryFillBegun(Stamp(now, ProcessBegin(env, now, cpi, ixs, i, ix, w).value.events))
  {
    var input := ParseBegin(ix.data, ix.metas).value;
    var pushes := PairedPushes(env, ixs, i, input.finalizeIx).value;
    var orders := SplitOrders(input.orders);
    BatchOnlyFills(env, now, w, orders, pushes, None);
    FillsAfterBegun(now, Begun(input.solver.key, Signers(ix.metas)),
                    SettleOrders(env, now, w, orders, pushes, None).value.events);
  }

  /** Events of the other handlers: none is a fill. */
  ghost predicate NoFills(r: Result<Outcome>)
  {
    r.Ok? ==> forall e :: e in r.value.events ==> !e.Filled?
  }

  lemma CreateDoesNotFill(env: Env, w: World, metas: seq<Meta>, body: seq<Byte>)
    ensures NoFills(OrderHandlers.ProcessCreateOrder(env, w, metas, body))
  {}

  lemma CreateOwnedDoesNotFill(env: Env, w: World, metas: seq<Meta>, body: seq<Byte>)
    ensures NoFills(OrderHandlers.ProcessCreateSettlementOwnedOrder(env, w, metas, body))
  {}

  lemma CancelDoesNotFill(env: Env, w: World, metas: seq<Meta>, body: seq<Byte>)
    ensures NoFills(OrderHandlers.ProcessCancelOrder(env, w, metas, body))
  {}

  lemma ReclaimDoesNotFill(env: Env, now: int, w: World, metas: seq<Meta>, body: seq<Byte>)
    ensures NoFills(OrderHandlers.ProcessReclaimOrder(env, now, w, metas, body))
  {}

  lemma AdminHandlersDoNotFill(env: Env, w: World, metas: seq<Meta>, body: seq<Byte>)
    ensures NoFills(AdminHandlers.ProcessAddSolver(env, w, metas, body))
    ensures NoFills(AdminHandlers.ProcessRemoveSolver(env, w, metas, body))
    ensures NoFills(AdminHandlers.ProcessTransferAuthority(env, w, metas, body))
    ensures NoFills(AdminHandlers.ProcessWithdrawNativeSol(env, w, metas, body))
  {}

  lemma DispatchDoesNotFill(env: Env, now: int, cpi: bool, ixs: seq<Ix>, i: nat, ix: Ix, w: World)
    requires |env.buffers.known| < 255
    requires RecoverDiscriminator(ix.data).Ok? ==> cpi || !RecoverDiscriminator(ix.data).value.0.BeginSettle?
    ensures NoFills(Dispatch(env, now, cpi, ixs, i, ix, w))
  {
    if RecoverDiscriminator(ix.data).Ok? {
      var (kind, body) := RecoverDiscriminator(ix.data).value;
      match kind
      case CreateOrder => CreateDoesNotFill(env, w, ix.metas, body);
      case CreateSettlementOwnedOrder => CreateOwnedDoesNotFill(env, w, ix.metas, body);
      case CancelOrder => CancelDoesNotFill(env, w, ix.metas, body);
      case ReclaimOrder => ReclaimDoesNotFill(env, now, w, ix.metas, body);
      case AddSolver => AdminHandlersDoNotFill(env, w, ix.metas, body);
      case RemoveSolver => AdminHandlersDoNotFill(env, w, ix.metas, body);
      case TransferAuthority => AdminHandlersDoNotFill(env, w, ix.metas, body);
      case _ =>
    }
  }

  lemma DispatchFillsBegun(env: Env, now: int, cpi: bool, ixs: seq<Ix>, i: nat, ix: Ix, w: World)
    requires |env.buffers.known| < 255 && Dispatch(env, now, cpi, ixs, i, ix, w).Ok?
    ensures EveryFillBegun(Stamp(now, Dispatch(env, now, cpi, ixs, i, ix, w).value.events))
  {
    if RecoverDiscriminator(ix.data).value.0.BeginSettle? {
      BeginFillsBegun(env, now, cpi, ixs, i, ix, w);
    } else {
      DispatchDoesNotFill(env, now, cpi, ixs, i, ix, w);
      var events := Dispatch(env, now, cpi, ixs, i, ix, w).value.events;
      assert forall k :: 0 <= k < |events| ==> Stamp(now, events)[k].event == events[k] && events[k] in events;
    }
  }

  lemma {:induction false} ActsFillsBegun(env: Env, now: int, ixs: seq<Ix>, i: nat, acts: seq<Act>, w: World)
    requires |env.buffers.known| < 255 && DoActs(env, now, ixs, i, acts, w).Ok?
    ensures EveryFillBegun(Stamp(now, DoActs(env, now, ixs, i, acts, w).value.events))
    decreases |acts|
  {
    if acts != [] {
      var first := DoAct(env, now, ixs, i, acts[0], w).value;
      if acts[0].Call? && acts[0].ix.programId == env.programId {
        DispatchFillsBegun(env, now, true, ixs, i, acts[0].ix, w);
      }
      ActsFillsBegun(env, now, ixs, i, acts[1..], first.world);
      var rest := DoActs(env, now, ixs, i, acts[1..], first.world).value;
      StampAppend(now, first.events, rest.events);
      FillsBegunCompose(Stamp(now, first.events), Stamp(now, rest.events));
    }
  }

  lemma ExecFillsBegun(env: Env, now: int, ixs: seq<Ix>, i: nat, op: Op, w: World)
    requires |env.buffers.known| < 255 && Exec(env, now, ixs, i, op, w).Ok?
    ensures EveryFillBegun(Stamp(now, Exec(env, now, ixs, i, op, w).value.events))
  {
    if IsOpaque(env, op.ix) {
      ActsFillsBegun(env, now, ixs, i, op.acts, w);
    } else {
      DispatchFillsBegun(env, now, false, ixs, i, op.ix, w);
    }
  }

  lemma {:induction false} TransactionFillsBegun(env: Env, now: int, tx: Tx, w: World, k: nat)
    requires |env.buffers.known| < 255 && k <= |tx| && RunFrom(env, now, tx, w, k).Ok?
    ensures EveryFillBegun(Stamp(now, RunFrom(env, now, tx, w, k).value.events))
    decreases |tx| - k
  {
    if k < |tx| {
      var first := Exec(env, now, Ixs(tx), k, tx[k], w).value;
      ExecFillsBegun(env, now, Ixs(tx), k, tx[k], w);
      TransactionFillsBegun(env, now, tx, first.world, k + 1);
      var rest := RunFrom(env, now, tx, first.world, k + 1).value;
      StampAppend(now, first.events, rest.events);
      FillsBegunCompose(Stamp(now, first.events), Stamp(now, rest.events));
    }
  }

  lemma {:induction false} HistoryFillsBegun(env: Env, w: World, history: seq<Attempt>)
    requires |env.buffers.known| < 255
    ensures EveryFillBegun(RunHistory(env, w, history).1)
    decreases |history|
  {
    if history != [] {
      var attempt := history[0];
      if RunTx(env, attempt.now, attempt.tx, w).Ok? {
        TransactionFillsBegun(env, attempt.now, attempt.tx, w, 0);
      }
      var first := Commit(env, w, attempt);
      HistoryFillsBegun(env, first.world, history[1..]);
      FillsBegunCompose(Stamp(attempt.now, first.events), RunHistory(env, first.world, history[1..]).1);
    }
  }

  /** Every fill of any history belongs to a begin, with only fills between them, and whoever began
      it signed it and was a solver added and not since removed at that moment. */
  lemma EverySettlementInHistoryApproved(env: Env, w: World, history: seq<Attempt>, k: nat) returns (j: nat)
    requires |env.buffers.known| < 255 && WellFormed(w.state)
    requires k < |RunHistory(env, w, history).1| && RunHistory(env, w, history).1[k].event.Filled?
    ensures var run := RunHistory(env, w, history).1;
      && FillsUnder(run, j, k)
      && run[j].event.solver in SolversAfter(SolverSet(w.state), run[..j])
      && run[j].event.solver in run[j].event.signers
  {
    HistoryRefines(env, w, history);
    HistoryFillsBegun(env, w, history);
    var run := RunHistory(env, w, history).1;
    j :| FillsUnder(run, j, k);
    EverySolverApproved(env, BookOf(w), run, j);
    ReplayedSolvers(BookOf(w), run[..j]);
  }

  /** Over every history, two settlements of one fill-or-kill order with no reclaim of it between
      them: the later one withdraws nothing. */
  lemma FillOrKillOnceInHistory(env: Env, w: World, history: seq<Attempt>, a: Address, intent: OrderIntent,
                                j: nat, k: nat)
    requires |env.buffers.known| < 255 && WellFormed(w.state) && OrdersOk(env, w.orders)
    requires OnlyIntent(env, a, intent) && !intent.flags.partiallyFillable
    requires j < k < |RunHistory(env, w, history).1|
    requires var run := RunHistory(env, w, history).1;
      && FillsOrder(run[j].event, a) && FillsOrder(run[k].event, a)
      && forall i :: j < i < k ==> !ReclaimsOrder(run[i].event, a)
    ensures RunHistory(env, w, history).1[k].event.withdrawn == 0
  {
    HistoryRefines(env, w, history);
    FillOrKillOnce(env, BookOf(w), RunHistory(env, w, history).1, a, intent, j, k);
  }
}
