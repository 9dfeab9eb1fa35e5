/** The order book as an abstract machine over events, and what holds over every run of it:
    fill bounds, finality of cancellations, and totals across re-creations of one order. */
module Lifecycle {
  import opened Basics
  import opened Intent
  import opened OrderAccounts
  import opened Fills
  import opened Worlds
  import opened StateAccounts

  /** Orders, role holders and the set of solvers. */
  datatype Book = Book(orders: map<Address, OrderBody>, roles: map<Role, Address>, solvers: set<Address>)

  datatype Stamped = Stamped(now: int, event: Event)

  ghost predicate HasRoles(book: Book)
  {
    forall role: Role :: role in book.roles
  }

  /** An order's owner signed, or the order is the settlement's own and its authority signed. */
  ghost predicate Authorised(env: Env, intent: OrderIntent, signers: set<Address>, authority: Address)
  {
    intent.owner in signers || (intent.owner == env.statePda && authority in signers)
  }

  ghost predicate LegalOrderEvent(env: Env, now: int, book: Book, e: Event)
    requires HasRoles(book)
  {
    match e
    case Created(a, b, signers, authority) =>
      && a !in book.orders && b.withdrawn == 0 && b.received == 0
      && env.orderAddress(b.intent, b.bump) == Some(a)
      && authority == book.roles[SettlementOwnedOrderAuthority]
      && Authorised(env, b.intent, signers, authority)
    case Filled(a, amountIn, amountOut) =>
      && a in book.orders && !book.orders[a].cancelled && now <= book.orders[a].intent.validTo
      && Fill(book.orders[a], amountIn, amountOut).Ok?
    case Cancelled(a, signers, authority) =>
      && a in book.orders
      && authority == book.roles[SettlementOwnedOrderAuthority]
      && Authorised(env, book.orders[a].intent, signers, authority)
    case Reclaimed(a, signers) =>
      && a in book.orders
      && var b := book.orders[a];
         var (filled, wanted) := FillProgress(b.intent, b.withdrawn, b.received);
         filled >= wanted || now > b.intent.validTo || (b.cancelled && b.intent.owner in signers)
    case _ => true
  }

  ghost predicate LegalAdminEvent(book: Book, e: Event)
    requires HasRoles(book)
  {
    match e
    case Begun(solver, signers) => solver in book.solvers && solver in signers
    case SolverAdded(solver, signers) => solver !in book.solvers && book.roles[SolverAuthority] in signers
    case SolverRemoved(solver, signers) => solver in book.solvers && book.roles[SolverAuthority] in signers
    case RoleGiven(role, _, signers) => book.roles[Manager] in signers || book.roles[role] in signers
    case _ => true
  }

  ghost predicate Legal(env: Env, now: int, book: Book, e: Event)
    requires HasRoles(book)
  {
    LegalOrderEvent(env, now, book, e) && LegalAdminEvent(book, e)
  }

  ghost function Apply(book: Book, e: Event): (r: Book)
    ensures HasRoles(book) ==> HasRoles(r)
  {
    match e
    case Created(a, b, _, _) => book.(orders := book.orders[a := b])
    case Filled(a, amountIn, amountOut) =>
      if a in book.orders && Fill(book.orders[a], amountIn, amountOut).Ok?
      then book.(orders := book.orders[a := Fill(book.orders[a], amountIn, amountOut).value]) else book
    case Cancelled(a, _, _) =>
      if a in book.orders then book.(orders := book.orders[a := book.orders[a].(cancelled := true)]) else book
    case Reclaimed(a, _) => book.(orders := book.orders - {a})
    case Begun(_, _) => book
    case SolverAdded(solver, _) => book.(solvers := book.solvers + {solver})
    case SolverRemoved(solver, _) => book.(solvers := book.solvers - {solver})
    case RoleGiven(role, holder, _) => book.(roles := book.roles[role := holder])
  }

  ghost function Replay(book: Book, run: seq<Stamped>): (r: Book)
    ensures HasRoles(book) ==> HasRoles(r)
    decreases |run|
  {
    if run == [] then book else Replay(Apply(book, run[0].event), run[1..])
  }

  ghost predicate LegalRun(env: Env, book: Book, run: seq<Stamped>)
    requires HasRoles(book)
    decreases |run|
  {
    run == [] ||
    (Legal(env, run[0].now, book, run[0].event) && LegalRun(env, Apply(book, run[0].event), run[1..]))
  }

  lemma {:induction false} RunsCompose(env: Env, book: Book, x: seq<Stamped>, y: seq<Stamped>)
    requires HasRoles(book)
    ensures Replay(book, x + y) == Replay(Replay(book, x), y)
    ensures LegalRun(env, book, x + y) <==> LegalRun(env, book, x) && LegalRun(env, Replay(book, x), y)
    decreases |x|
  {
    if x == [] {
      assert x + y == y;
    } else {
      assert (x + y)[0] == x[0] && (x + y)[1..] == x[1..] + y;
      RunsCompose(env, Apply(book, x[0].event), x[1..], y);
    }
  }

  // ---------------------------------------------------------------------------------------
  // Bounds on every reachable order account
  // ---------------------------------------------------------------------------------------

  /** Every stored order sits at its own derived address and is within its limits. */
  ghost predicate OrdersOk(env: Env, orders: map<Address, OrderBody>)
  {
    forall a :: a in orders ==>
      env.orderAddress(orders[a].intent, orders[a].bump) == Some(a) && WithinLimits(orders[a])
  }

  lemma EventKeepsOrdersOk(env: Env, now: int, book: Book, e: Event)
    requires HasRoles(book) && OrdersOk(env, book.orders) && Legal(env, now, book, e)
    ensures OrdersOk(env, Apply(book, e).orders)
  {
    if e.Filled? {
      FillKeepsLimits(book.orders[e.order], e.withdrawn, e.received);
    }
  }

  /** Over any run: cumulative price at or above the limit, the exact side never exceeded, a
      fill-or-kill order untouched or complete, and never more sold than the sell amount. */
  lemma {:induction false} AccountsStayWithinLimits(env: Env, book: Book, run: seq<Stamped>)
    requires HasRoles(book) && OrdersOk(env, book.orders) && LegalRun(env, book, run)
    ensures OrdersOk(env, Replay(book, run).orders)
    ensures forall a :: a in Replay(book, run).orders ==>
      Replay(book, run).orders[a].withdrawn <= Replay(book, run).orders[a].intent.sellAmount
    decreases |run|
  {
    if run != [] {
      EventKeepsOrdersOk(env, run[0].now, book, run[0].event);
      AccountsStayWithinLimits(env, Apply(book, run[0].event), run[1..]);
    } else {
      forall a | a in book.orders ensures book.orders[a].withdrawn <= book.orders[a].intent.sellAmount {
        NeverOversold(book.orders[a]);
      }
    }
  }

  // ---------------------------------------------------------------------------------------
  // Cancellation is final
  // ---------------------------------------------------------------------------------------

  /** Stored, and its exact side has reached its amount. */
  ghost predicate Complete(orders: map<Address, OrderBody>, a: Address)
  {
    && a in orders
    && var (filled, wanted) := FillProgress(orders[a].intent, orders[a].withdrawn, orders[a].received);
       filled >= wanted
  }

  /** No other intent derives this address: the hash and the derivation do not collide here. */
  ghost predicate OnlyIntent(env: Env, a: Address, intent: OrderIntent)
  {
    forall other, bump :: env.orderAddress(other, bump) == Some(a) ==> other == intent
  }

  ghost predicate ClockFrom(now: int, run: seq<Stamped>)
  {
    && (forall k :: 0 <= k < |run| ==> now <= run[k].now)
    && (forall j, k :: 0 <= j < k < |run| ==> run[j].now <= run[k].now)
  }

  /** Stored, cancelled, and its exact side still below its amount. */
  ghost predicate CancelledBelow(orders: map<Address, OrderBody>, a: Address)
  {
    && a in orders && orders[a].cancelled
    && var (filled, wanted) := FillProgress(orders[a].intent, orders[a].withdrawn, orders[a].received);
       filled < wanted
  }

  ghost predicate OwnerReclaims(e: Event, a: Address, owner: Address)
  {
    e.Reclaimed? && e.order == a && owner in e.signers
  }

  /** An order cancelled below its amount is never settled again, under a clock that does not go
      back and without a reclaim signed by its owner, even when its account is closed after
      expiry and created anew. */
  lemma {:induction false} CancellationIsFinal(env: Env, book: Book, run: seq<Stamped>, a: Address,
                                               intent: OrderIntent, now: int)
    requires HasRoles(book) && OrdersOk(env, book.orders) && LegalRun(env, book, run)
    requires OnlyIntent(env, a, intent) && ClockFrom(now, run)
    requires CancelledBelow(book.orders, a) || now > intent.validTo
    requires forall k :: 0 <= k < |run| ==> !OwnerReclaims(run[k].event, a, intent.owner)
    ensures forall k :: 0 <= k < |run| ==> !(run[k].event.Filled? && run[k].event.order == a)
    decreases |run|
  {
    if run != [] {
      var e, book' := run[0].event, Apply(book, run[0].event);
      EventKeepsOrdersOk(env, run[0].now, book, e);
      assert a in book.orders ==> book.orders[a].intent == intent;
      assert !(e.Filled? && e.order == a);
      assert !OwnerReclaims(e, a, intent.owner);
      assert CancelledBelow(book'.orders, a) || run[0].now > intent.validTo;
      forall k | 0 <= k < |run[1..]| ensures run[1..][k] == run[k + 1] {}
      CancellationIsFinal(env, book', run[1..], a, intent, run[0].now);
      forall k | 1 <= k < |run| ensures !(run[k].event.Filled? && run[k].event.order == a) {
        assert run[k] == run[1..][k - 1];
      }
    }
  }

  /** An expired order is never settled, whoever reclaims or creates it. */
  lemma {:induction false} ExpiredIsFinal(env: Env, book: Book, run: seq<Stamped>, a: Address, intent: OrderIntent, now: int)
    requires HasRoles(book) && OrdersOk(env, book.orders) && LegalRun(env, book, run)
    requires OnlyIntent(env, a, intent) && ClockFrom(now, run) && now > intent.validTo
    ensures !Settles(run, a)
    decreases |run|
  {
    if run != [] {
      EventKeepsOrdersOk(env, run[0].now, book, run[0].event);
      forall k | 0 <= k < |run[1..]| ensures run[1..][k] == run[k + 1] {}
      ExpiredIsFinal(env, Apply(book, run[0].event), run[1..], a, intent, now);
      forall k | 1 <= k < |run| ensures !(run[k].event.Filled? && run[k].event.order == a) {
        assert run[k] == run[1..][k - 1];
      }
    }
  }

  /** Some event of the run is a reclaim of `a` that its owner signed. */
  ghost predicate ReclaimedByOwner(run: seq<Stamped>, a: Address, owner: Address)
  {
    exists k :: 0 <= k < |run| && OwnerReclaims(run[k].event, a, owner)
  }

  ghost predicate Settles(run: seq<Stamped>, a: Address)
  {
    exists k :: 0 <= k < |run| && run[k].event.Filled? && run[k].event.order == a
  }

  // ---------------------------------------------------------------------------------------
  // Totals over all incarnations of one order
  // ---------------------------------------------------------------------------------------

  ghost function TotalWithdrawn(run: seq<Stamped>, a: Address): (n: nat)
  {
    if run == [] then 0 else
      (if run[0].event.Filled? && run[0].event.order == a then run[0].event.withdrawn else 0)
      + TotalWithdrawn(run[1..], a)
  }

  ghost function TotalReceived(run: seq<Stamped>, a: Address): (n: nat)
  {
    if run == [] then 0 else
      (if run[0].event.Filled? && run[0].event.order == a then run[0].event.received else 0)
      + TotalReceived(run[1..], a)
  }

  lemma {:induction false} UnsettledGivesNothing(run: seq<Stamped>, a: Address)
    requires !Settles(run, a)
    ensures TotalWithdrawn(run, a) == 0 && TotalReceived(run, a) == 0
    decreases |run|
  {
    if run != [] {
      forall k | 0 <= k < |run[1..]| ensures run[1..][k] == run[k + 1] {}
      UnsettledGivesNothing(run[1..], a);
    }
  }

  /** The creations of the order that were not cancellations in advance. */
  ghost function LiveCreations(run: seq<Stamped>, a: Address): (n: nat)
  {
    if run == [] then 0 else
      (if run[0].event.Created? && run[0].event.order == a && !run[0].event.body.cancelled then 1 else 0)
      + LiveCreations(run[1..], a)
  }

  /** What the current incarnation may still add: its unsold part if it is live. */
  ghost function Unsold(orders: map<Address, OrderBody>, a: Address): (n: int)
  {
    if a in orders && !orders[a].cancelled then orders[a].intent.sellAmount - orders[a].withdrawn else 0
  }

  /** One event never takes more than the current incarnation has left, and only a live creation
      adds to that. */
  lemma UnsoldStep(env: Env, now: int, book: Book, e: Event, a: Address, intent: OrderIntent)
    requires HasRoles(book) && OrdersOk(env, book.orders) && Legal(env, now, book, e)
    requires OnlyIntent(env, a, intent)
    ensures var taken := if e.Filled? && e.order == a then e.withdrawn else 0;
      var granted := if e.Created? && e.order == a && !e.body.cancelled then intent.sellAmount else 0;
      taken + Unsold(Apply(book, e).orders, a) <= granted + Unsold(book.orders, a)
  {
    if a in book.orders {
      NeverOversold(book.orders[a]);
    }
  }

  /** The sell amount once per live creation. */
  ghost function Allowance(run: seq<Stamped>, a: Address, sell: nat): (n: nat)
  {
    if run == [] then 0 else
      (if run[0].event.Created? && run[0].event.order == a && !run[0].event.body.cancelled then sell else 0)
      + Allowance(run[1..], a, sell)
  }

  lemma {:induction false} AllowanceIsProduct(run: seq<Stamped>, a: Address, sell: nat)
    ensures Allowance(run, a, sell) == sell * LiveCreations(run, a)
  {
    if run != [] {
      AllowanceIsProduct(run[1..], a, sell);
      var n := LiveCreations(run[1..], a);
      assert sell * (1 + n) == sell + sell * n;
    }
  }

  lemma {:induction false} WithdrawnBound(env: Env, book: Book, run: seq<Stamped>, a: Address, intent: OrderIntent)
    requires HasRoles(book) && OrdersOk(env, book.orders) && LegalRun(env, book, run)
    requires OnlyIntent(env, a, intent)
    ensures TotalWithdrawn(run, a) <= Allowance(run, a, intent.sellAmount) + Unsold(book.orders, a)
    decreases |run|
  {
    if run == [] {
      if a in book.orders {
        NeverOversold(book.orders[a]);
      }
    } else {
      var e := run[0].event;
      EventKeepsOrdersOk(env, run[0].now, book, e);
      UnsoldStep(env, run[0].now, book, e, a, intent);
      WithdrawnBound(env, Apply(book, e), run[1..], a, intent);
    }
  }

  lemma FirstFillAddsUp(run: seq<Stamped>, a: Address, intent: OrderIntent)
    requires run != [] && run[0].event.Filled? && run[0].event.order == a
    requires run[0].event.received * intent.sellAmount >= run[0].event.withdrawn * intent.buyAmount
    requires TotalReceived(run[1..], a) * intent.sellAmount >= TotalWithdrawn(run[1..], a) * intent.buyAmount
    ensures TotalReceived(run, a) * intent.sellAmount >= TotalWithdrawn(run, a) * intent.buyAmount
  {
    PricesAddUp(intent.sellAmount, intent.buyAmount, run[0].event.withdrawn, run[0].event.received,
                TotalWithdrawn(run[1..], a), TotalReceived(run[1..], a));
  }

  lemma {:induction false} LifetimePrice(env: Env, book: Book, run: seq<Stamped>, a: Address, intent: OrderIntent)
    requires HasRoles(book) && OrdersOk(env, book.orders) && LegalRun(env, book, run)
    requires OnlyIntent(env, a, intent)
    ensures TotalReceived(run, a) * intent.sellAmount >= TotalWithdrawn(run, a) * intent.buyAmount
    decreases |run|
  {
    if run != [] {
      var e := run[0].event;
      EventKeepsOrdersOk(env, run[0].now, book, e);
      LifetimePrice(env, Apply(book, e), run[1..], a, intent);
      if e.Filled? && e.order == a {
        FirstFillAddsUp(run, a, intent);
      }
    }
  }

  /** Across all incarnations of an order, at most the sell amount is withdrawn per live
      creation, each of which its owner authorised, and the overall price is at or above the
      limit. */
  lemma LifetimeBounds(env: Env, book: Book, run: seq<Stamped>, a: Address, intent: OrderIntent)
    requires HasRoles(book) && OrdersOk(env, book.orders) && LegalRun(env, book, run)
    requires OnlyIntent(env, a, intent) && a !in book.orders
    ensures TotalWithdrawn(run, a) <= intent.sellAmount * LiveCreations(run, a)
    ensures TotalReceived(run, a) * intent.sellAmount >= TotalWithdrawn(run, a) * intent.buyAmount
  {
    WithdrawnBound(env, book, run, a, intent);
    AllowanceIsProduct(run, a, intent.sellAmount);
    LifetimePrice(env, book, run, a, intent);
  }

  /** A creation in a legal run was signed by the intent's owner, or by the settlement-owned
      order authority of the moment for the settlement's own orders. */
  lemma {:induction false} EveryCreationAuthorised(env: Env, book: Book, run: seq<Stamped>, k: nat)
    requires HasRoles(book) && LegalRun(env, book, run) && k < |run| && run[k].event.Created?
    ensures Authorised(env, run[k].event.body.intent, run[k].event.signers,
                       Replay(book, run[..k]).roles[SettlementOwnedOrderAuthority])
    decreases |run|
  {
    if k > 0 {
      assert run[1..][k - 1] == run[k] && run[..k][1..] == run[1..][..k - 1];
      EveryCreationAuthorised(env, Apply(book, run[0].event), run[1..], k - 1);
    }
  }

  /** Whoever begins a settlement in a legal run signed it and was a solver at that moment. */
  lemma {:induction false} EverySolverApproved(env: Env, book: Book, run: seq<Stamped>, k: nat)
    requires HasRoles(book) && LegalRun(env, book, run) && k < |run| && run[k].event.Begun?
    ensures run[k].event.solver in Replay(book, run[..k]).solvers && run[k].event.solver in run[k].event.signers
    decreases |run|
  {
    if k > 0 {
      assert run[1..][k - 1] == run[k] && run[..k][1..] == run[1..][..k - 1];
      EverySolverApproved(env, Apply(book, run[0].event), run[1..], k - 1);
    }
  }

  /** A role changes hands only when the manager or the role's holder of the moment signs. */
  lemma {:induction false} EveryTransferAuthorised(env: Env, book: Book, run: seq<Stamped>, k: nat)
    requires HasRoles(book) && LegalRun(env, book, run) && k < |run| && run[k].event.RoleGiven?
    ensures var roles := Replay(book, run[..k]).roles;
      roles[Manager] in run[k].event.signers || roles[run[k].event.role] in run[k].event.signers
    decreases |run|
  {
    if k > 0 {
      assert run[1..][k - 1] == run[k] && run[..k][1..] == run[1..][..k - 1];
      EveryTransferAuthorised(env, Apply(book, run[0].event), run[1..], k - 1);
    }
  }

  // ---------------------------------------------------------------------------------------
  // Fill-or-kill
  // ---------------------------------------------------------------------------------------

  ghost predicate FillsOrder(e: Event, a: Address) { e.Filled? && e.order == a }

  ghost predicate ReclaimsOrder(e: Event, a: Address) { e.Reclaimed? && e.order == a }

  /** The order is stored and its exact side has moved. */
  ghost predicate Touched(orders: map<Address, OrderBody>, a: Address)
  {
    a in orders && FillProgress(orders[a].intent, orders[a].withdrawn, orders[a].received).0 > 0
  }

  /** Short of a reclaim, a touched order stays touched, and settling a fill-or-kill order
      touches it. */
  lemma TouchedStays(env: Env, now: int, book: Book, e: Event, a: Address)
    requires HasRoles(book) && OrdersOk(env, book.orders) && Legal(env, now, book, e)
    requires !ReclaimsOrder(e, a)
    requires Touched(book.orders, a) || (FillsOrder(e, a) && !book.orders[a].intent.flags.partiallyFillable)
    ensures Touched(Apply(book, e).orders, a)
  {
    if FillsOrder(e, a) {
      FillKeepsLimits(book.orders[a], e.withdrawn, e.received);
    }
  }

  /** A touched fill-or-kill order gives nothing more until it is reclaimed. */
  lemma {:induction false} TouchedGivesNothing(env: Env, book: Book, run: seq<Stamped>, a: Address,
                                               intent: OrderIntent, k: nat)
    requires HasRoles(book) && OrdersOk(env, book.orders) && LegalRun(env, book, run)
    requires OnlyIntent(env, a, intent) && !intent.flags.partiallyFillable && Touched(book.orders, a)
    requires k < |run| && FillsOrder(run[k].event, a)
    requires forall i :: 0 <= i < k ==> !ReclaimsOrder(run[i].event, a)
    ensures run[k].event.withdrawn == 0
    decreases |run|
  {
    var e := run[0].event;
    if k == 0 {
      FilledOnce(book.orders[a], e.withdrawn, e.received);
    } else {
      EventKeepsOrdersOk(env, run[0].now, book, e);
      TouchedStays(env, run[0].now, book, e, a);
      assert forall i :: 0 <= i < |run[1..]| ==> run[1..][i] == run[i + 1];
      TouchedGivesNothing(env, Apply(book, e), run[1..], a, intent, k - 1);
    }
  }

  /** Of two settlements of one fill-or-kill order with no reclaim of it between them, the later
      one withdraws nothing. */
  lemma {:induction false} FillOrKillOnce(env: Env, book: Book, run: seq<Stamped>, a: Address, intent: OrderIntent,
                                          j: nat, k: nat)
    requires HasRoles(book) && OrdersOk(env, book.orders) && LegalRun(env, book, run)
    requires OnlyIntent(env, a, intent) && !intent.flags.partiallyFillable
    requires j < k < |run| && FillsOrder(run[j].event, a) && FillsOrder(run[k].event, a)
    requires forall i :: j < i < k ==> !ReclaimsOrder(run[i].event, a)
    ensures run[k].event.withdrawn == 0
    decreases |run|
  {
    var e := run[0].event;
    EventKeepsOrdersOk(env, run[0].now, book, e);
    assert forall i :: 0 <= i < |run[1..]| ==> run[1..][i] == run[i + 1];
    if j == 0 {
      TouchedStays(env, run[0].now, book, e, a);
      TouchedGivesNothing(env, Apply(book, e), run[1..], a, intent, k - 1);
    } else {
      FillOrKillOnce(env, Apply(book, e), run[1..], a, intent, j - 1, k - 1);
    }
  }
}
