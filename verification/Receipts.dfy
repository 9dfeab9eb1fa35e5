/** The totals of an order are receipts: over every history they equal what the begins pulled for
    it and what the finalizes paid for it. */
module Receipts {
  import opened Basics
  import opened SettleWire
  import opened Worlds
  import opened Settle
  import opened Transactions
  import opened Lifecycle
  import opened Histories
  import Intent
  import StateAccounts

  /** What the batch pulls for the order at `a`. */
  function PulledFor(orders: seq<SettledOrder<Meta>>, a: Address): (n: nat)
  {
    if orders == [] then 0
    else (if orders[0].orderPda.key == a then Sum(orders[0].amounts) else 0) + PulledFor(orders[1..], a)
  }

  /** What the pushes pay for the order at `a`, push `k` paying order `k`. */
  function PaidFor(orders: seq<SettledOrder<Meta>>, pushes: seq<PairedPush>, a: Address): (n: nat)
  {
    if orders == [] || pushes == [] then 0
    else (if orders[0].orderPda.key == a then pushes[0].amount else 0) + PaidFor(orders[1..], pushes[1..], a)
  }

  // ---------------------------------------------------------------------------------------
  // The events of one instruction
  // ---------------------------------------------------------------------------------------

  lemma {:induction false} TotalsAppend(x: seq<Stamped>, y: seq<Stamped>, a: Address)
    ensures TotalWithdrawn(x + y, a) == TotalWithdrawn(x, a) + TotalWithdrawn(y, a)
    ensures TotalReceived(x + y, a) == TotalReceived(x, a) + TotalReceived(y, a)
    decreases |x|
  {
    if x == [] {
      assert x + y == y;
    } else {
      assert (x + y)[0] == x[0] && (x + y)[1..] == x[1..] + y;
      TotalsAppend(x[1..], y, a);
    }
  }

  lemma {:induction false} NothingFilled(run: seq<Stamped>, a: Address)
    requires forall k :: 0 <= k < |run| ==> !run[k].event.Filled?
    ensures TotalWithdrawn(run, a) == 0 && TotalReceived(run, a) == 0
    decreases |run|
  {
    if run != [] {
      assert forall k :: 0 <= k < |run[1..]| ==> run[1..][k] == run[k + 1];
      NothingFilled(run[1..], a);
    }
  }

  /** An outcome's totals for `a` are these. */
  ghost predicate Totals(now: int, events: seq<Event>, a: Address, withdrawn: nat, received: nat)
  {
    TotalWithdrawn(Stamp(now, events), a) == withdrawn && TotalReceived(Stamp(now, events), a) == received
  }

  lemma TotalsCompose(now: int, x: seq<Event>, y: seq<Event>, a: Address, in1: nat, out1: nat, in2: nat, out2: nat)
    requires Totals(now, x, a, in1, out1) && Totals(now, y, a, in2, out2)
    ensures Totals(now, x + y, a, in1 + in2, out1 + out2)
  {
    StampAppend(now, x, y);
    TotalsAppend(Stamp(now, x), Stamp(now, y), a);
  }

  lemma OneFill(now: int, e: Event, a: Address)
    ensures if e.Filled? && e.order == a then Totals(now, [e], a, e.withdrawn, e.received) else Totals(now, [e], a, 0, 0)
  {
    var run := Stamp(now, [e]);
    assert run == [Stamped(now, e)] && run[1..] == [];
    assert TotalWithdrawn(run[1..], a) == 0 && TotalReceived(run[1..], a) == 0;
  }

  lemma {:induction false} BatchTotals(env: Env, now: int, w: World, orders: seq<SettledOrder<Meta>>,
                                       pushes: seq<PairedPush>, previous: Option<Address>, a: Address)
    requires |env.buffers.known| < 255 && WellGrouped(orders)
    requires SettleOrders(env, now, w, orders, pushes, previous).Ok?
    ensures Totals(now, SettleOrders(env, now, w, orders, pushes, previous).value.events, a,
                   PulledFor(orders, a), PaidFor(orders, pushes, a))
    decreases |orders|
  {
    if orders != [] {
      var o := orders[0];
      ProcessOrderEffect(env, now, w, o, pushes[0]);
      var first := ProcessOrder(env, now, w, o, pushes[0]).value;
      BatchTotals(env, now, first.world, orders[1..], pushes[1..], Some(o.orderPda.key), a);
      var rest := SettleOrders(env, now, first.world, orders[1..], pushes[1..], Some(o.orderPda.key)).value;
      OneFill(now, first.events[0], a);
      TotalsCompose(now, first.events, rest.events, a,
                    if o.orderPda.key == a then Sum(o.amounts) else 0, if o.orderPda.key == a then pushes[0].amount else 0,
                    PulledFor(orders[1..], a), PaidFor(orders[1..], pushes[1..], a));
    }
  }

  lemma BeginTotals(env: Env, now: int, ixs: seq<Ix>, i: nat, ix: Ix, w: World, a: Address)
    requires |env.buffers.known| < 255 && ProcessBegin(env, now, false, ixs, i, ix, w).Ok?
    ensures var input := ParseBegin(ix.data, ix.metas).value;
      var orders, pushes := SplitOrders(input.orders), PairedPushes(env, ixs, i, input.finalizeIx).value;
      Totals(now, ProcessBegin(env, now, false, ixs, i, ix, w).value.events, a, PulledFor(orders, a), PaidFor(orders, pushes, a))
  {
    var input := ParseBegin(ix.data, ix.metas).value;
    var orders, pushes := SplitOrders(input.orders), PairedPushes(env, ixs, i, input.finalizeIx).value;
    GroupSizes(input.orders);
    BatchTotals(env, now, w, orders, pushes, None, a);
    var begun := Begun(input.solver.key, Signers(ix.metas));
    OneFill(now, begun, a);
    TotalsCompose(now, [begun], SettleOrders(env, now, w, orders, pushes, None).value.events, a,
                  0, 0, PulledFor(orders, a), PaidFor(orders, pushes, a));
  }

  lemma NoFillTotals(now: int, r: Result<Outcome>, a: Address)
    requires r.Ok? && NoFills(r)
    ensures Totals(now, r.value.events, a, 0, 0)
  {
    var events := r.value.events;
    assert forall k :: 0 <= k < |events| ==> Stamp(now, events)[k].event == events[k] && events[k] in events;
    NothingFilled(Stamp(now, events), a);
  }

  lemma {:induction false} ActsTotals(env: Env, now: int, ixs: seq<Ix>, i: nat, acts: seq<Act>, w: World, a: Address)
    requires |env.buffers.known| < 255 && DoActs(env, now, ixs, i, acts, w).Ok?
    ensures Totals(now, DoActs(env, now, ixs, i, acts, w).value.events, a, 0, 0)
    decreases |acts|
  {
    if acts == [] {
      assert Stamp(now, []) == [];
    } else {
      var first := DoAct(env, now, ixs, i, acts[0], w);
      if acts[0].Call? && acts[0].ix.programId == env.programId {
        DispatchDoesNotFill(env, now, true, ixs, i, acts[0].ix, w);
      }
      NoFillTotals(now, first, a);
      ActsTotals(env, now, ixs, i, acts[1..], first.value.world, a);
      TotalsCompose(now, first.value.events, DoActs(env, now, ixs, i, acts[1..], first.value.world).value.events, a, 0, 0, 0, 0);
    }
  }

  // ---------------------------------------------------------------------------------------
  // The events of one transaction
  // ---------------------------------------------------------------------------------------

  function SeenAs(pushes: seq<Push<Meta>>): (seen: seq<PairedPush>)
    ensures |seen| == |pushes|
  {
    seq(|pushes|, k requires 0 <= k < |pushes| => Paired(pushes[k]))
  }

  /** What the instruction at `k` pulls for the order at `a`: something only if it is a begin. */
  function PulledAt(env: Env, tx: Tx, k: nat, a: Address): (n: nat)
    requires k < |tx|
  {
    if IsBegin(env, tx[k].ix) && ParseBegin(tx[k].ix.data, tx[k].ix.metas).Ok?
    then PulledFor(OrdersOf(tx[k].ix), a) else 0
  }

  /** What the instruction at `f` pays for the order at `a`: something only if it is a finalize,
      whose push `k` pays order `k` of the begin it links to. */
  function PaidAt(env: Env, tx: Tx, f: nat, a: Address): (n: nat)
    requires f < |tx|
  {
    var b := LinkOf(tx[f].ix);
    if IsFinalize(env, tx[f].ix) && b < |tx| && ParseBegin(tx[b].ix.data, tx[b].ix.metas).Ok?
       && ParseFinalize(tx[f].ix.data, tx[f].ix.metas).Ok?
    then PaidFor(OrdersOf(tx[b].ix), SeenAs(PushesOf(tx[f].ix)), a) else 0
  }

  /** What the finalize linked from a begin at `k` pays for the order at `a`. */
  function OwedAt(env: Env, tx: Tx, k: nat, a: Address): (n: nat)
    requires k < |tx|
  {
    if IsBegin(env, tx[k].ix) && LinkOf(tx[k].ix) < |tx| then PaidAt(env, tx, LinkOf(tx[k].ix), a) else 0
  }

  function PulledFrom(env: Env, tx: Tx, k: nat, a: Address): (n: nat)
    requires k <= |tx|
    decreases |tx| - k
  {
    if k == |tx| then 0 else PulledAt(env, tx, k, a) + PulledFrom(env, tx, k + 1, a)
  }

  function PaidFrom(env: Env, tx: Tx, k: nat, a: Address): (n: nat)
    requires k <= |tx|
    decreases |tx| - k
  {
    if k == |tx| then 0 else PaidAt(env, tx, k, a) + PaidFrom(env, tx, k + 1, a)
  }

  function OwedFrom(env: Env, tx: Tx, k: nat, a: Address): (n: nat)
    requires k <= |tx|
    decreases |tx| - k
  {
    if k == |tx| then 0 else OwedAt(env, tx, k, a) + OwedFrom(env, tx, k + 1, a)
  }

  /** A begin records what it pulls and what its finalize pays. */
  lemma BeginRecords(env: Env, now: int, tx: Tx, ws: seq<World>, k: nat, a: Address)
    requires Committed(env, now, tx, ws) && k < |tx| && IsBegin(env, tx[k].ix)
    ensures ProcessBegin(env, now, false, Ixs(tx), k, tx[k].ix, ws[k]).Ok?
    ensures Totals(now, ProcessBegin(env, now, false, Ixs(tx), k, tx[k].ix, ws[k]).value.events, a,
                   PulledAt(env, tx, k, a), OwedAt(env, tx, k, a))
  {
    BeginRan(env, now, tx, ws, k);
    BeginTotals(env, now, Ixs(tx), k, tx[k].ix, ws[k], a);
    PairParses(env, now, tx, ws, k);
    ParsedBeginLink(tx[k].ix);
    var f := LinkOf(tx[k].ix);
    assert SeenBy(tx, k).value == SeenAs(PushesOf(tx[f].ix));
    assert PairedPushes(env, Ixs(tx), k, f) == SeenBy(tx, k);
  }

  /** Every instruction of a committed transaction records exactly that. */
  lemma StepRecords(env: Env, now: int, tx: Tx, ws: seq<World>, k: nat, a: Address) returns (events: seq<Event>)
    requires Committed(env, now, tx, ws) && k < |tx|
    ensures Exec(env, now, Ixs(tx), k, tx[k], ws[k]) == Ok(Outcome(ws[k + 1], events))
    ensures Totals(now, events, a, PulledAt(env, tx, k, a), OwedAt(env, tx, k, a))
  {
    assert StepAt(env, now, tx, ws, k);
    events := Exec(env, now, Ixs(tx), k, tx[k], ws[k]).value.events;
    if IsBegin(env, tx[k].ix) {
      BeginExec(env, now, Ixs(tx), k, tx[k], ws[k]);
      BeginRecords(env, now, tx, ws, k, a);
    } else if IsOpaque(env, tx[k].ix) {
      ActsTotals(env, now, Ixs(tx), k, tx[k].acts, ws[k], a);
    } else {
      DispatchDoesNotFill(env, now, false, Ixs(tx), k, tx[k].ix, ws[k]);
      NoFillTotals(now, Dispatch(env, now, false, Ixs(tx), k, tx[k].ix, ws[k]), a);
    }
  }

  lemma {:induction false} RunRecords(env: Env, now: int, tx: Tx, ws: seq<World>, k: nat, a: Address)
    requires Committed(env, now, tx, ws) && k <= |tx|
    ensures RunFrom(env, now, tx, ws[k], k).Ok?
    ensures Totals(now, RunFrom(env, now, tx, ws[k], k).value.events, a, PulledFrom(env, tx, k, a), OwedFrom(env, tx, k, a))
    decreases |tx| - k
  {
    if k == |tx| {
      assert Stamp(now, []) == [];
    } else {
      var events := StepRecords(env, now, tx, ws, k, a);
      RunRecords(env, now, tx, ws, k + 1, a);
      var rest := RunFrom(env, now, tx, ws[k + 1], k + 1).value;
      StepThenRest(env, now, tx, ws[k], k, Outcome(ws[k + 1], events), rest);
      TotalsCompose(now, events, rest.events, a, PulledAt(env, tx, k, a), OwedAt(env, tx, k, a),
                    PulledFrom(env, tx, k + 1, a), OwedFrom(env, tx, k + 1, a));
    }
  }

  // ---------------------------------------------------------------------------------------
  // What is owed is paid
  // ---------------------------------------------------------------------------------------

  /** The begin whose finalize is still to come when the first `k` instructions have run. */
  function OpenBegin(env: Env, tx: Tx, k: nat): (b: Option<nat>)
    requires k <= |tx|
    ensures b.Some? ==> b.value < k && IsBegin(env, tx[b.value].ix)
  {
    if k == 0 || IsFinalize(env, tx[k - 1].ix) then None
    else if IsBegin(env, tx[k - 1].ix) then Some(k - 1)
    else OpenBegin(env, tx, k - 1)
  }

  /** It is the only begin so far whose finalize is still to come. */
  lemma {:induction false} OpenIsOpen(env: Env, now: int, tx: Tx, ws: seq<World>, k: nat)
    requires Committed(env, now, tx, ws) && k <= |tx|
    ensures forall b :: 0 <= b < k && IsBegin(env, tx[b].ix) ==>
      (LinkOf(tx[b].ix) >= k <==> OpenBegin(env, tx, k) == Some(b))
    decreases k
  {
    if k > 0 {
      OpenIsOpen(env, now, tx, ws, k - 1);
      forall b | 0 <= b < k && IsBegin(env, tx[b].ix)
        ensures LinkOf(tx[b].ix) >= k <==> OpenBegin(env, tx, k) == Some(b)
      {
        BeginIsPaired(env, now, tx, ws, b);
      }
    }
  }

  /** What the open begin is owed. */
  function OpenOwed(env: Env, tx: Tx, k: nat, a: Address): (n: nat)
    requires k <= |tx|
  {
    match OpenBegin(env, tx, k)
    case None => 0
    case Some(b) => OwedAt(env, tx, b, a)
  }

  lemma FinalizeClosesOpen(env: Env, now: int, tx: Tx, ws: seq<World>, f: nat, a: Address)
    requires Committed(env, now, tx, ws) && f < |tx| && IsFinalize(env, tx[f].ix)
    ensures OpenOwed(env, tx, f, a) == PaidAt(env, tx, f, a)
  {
    FinalizeIsPaired(env, now, tx, ws, f);
    OpenIsOpen(env, now, tx, ws, f);
    assert OpenBegin(env, tx, f) == Some(LinkOf(tx[f].ix));
  }

  lemma BeginOpens(env: Env, now: int, tx: Tx, ws: seq<World>, k: nat)
    requires Committed(env, now, tx, ws) && k < |tx| && IsBegin(env, tx[k].ix)
    ensures OpenBegin(env, tx, k) == None
  {
    OpenIsOpen(env, now, tx, ws, k);
    if OpenBegin(env, tx, k).Some? {
      var b := OpenBegin(env, tx, k).value;
      BeginIsPaired(env, now, tx, ws, b);
      assert false;
    }
  }

  /** From any point on, the finalizes pay what the begins still to come owe, and what is open. */
  lemma {:induction false} OwedIsPaid(env: Env, now: int, tx: Tx, ws: seq<World>, k: nat, a: Address)
    requires Committed(env, now, tx, ws) && k <= |tx|
    ensures PaidFrom(env, tx, k, a) == OwedFrom(env, tx, k, a) + OpenOwed(env, tx, k, a)
    decreases |tx| - k
  {
    if k == |tx| {
      OpenIsOpen(env, now, tx, ws, k);
      if OpenBegin(env, tx, k).Some? {
        BeginIsPaired(env, now, tx, ws, OpenBegin(env, tx, k).value);
      }
    } else {
      OwedIsPaid(env, now, tx, ws, k + 1, a);
      if IsFinalize(env, tx[k].ix) {
        FinalizeClosesOpen(env, now, tx, ws, k, a);
      } else if IsBegin(env, tx[k].ix) {
        BeginOpens(env, now, tx, ws, k);
      }
    }
  }

  /** In a committed transaction the recorded totals are what the begins pull and what the finalizes
      pay. */
  lemma TransactionRecords(env: Env, now: int, tx: Tx, w: World, a: Address)
    requires |env.buffers.known| < 255 && RunTx(env, now, tx, w).Ok?
    ensures Totals(now, RunTx(env, now, tx, w).value.events, a, PulledFrom(env, tx, 0, a), PaidFrom(env, tx, 0, a))
  {
    var ws := RunIsCommitted(env, now, tx, w);
    RunRecords(env, now, tx, ws, 0, a);
    OwedIsPaid(env, now, tx, ws, 0, a);
  }

  // ---------------------------------------------------------------------------------------
  // Histories
  // ---------------------------------------------------------------------------------------

  /** What the committed transactions of a history pull for the order at `a`, and pay for it. */
  function PulledOver(env: Env, w: World, history: seq<Attempt>, a: Address): (n: nat)
    requires |env.buffers.known| < 255
    decreases |history|
  {
    if history == [] then 0 else
    var attempt := history[0];
    (if RunTx(env, attempt.now, attempt.tx, w).Ok? then PulledFrom(env, attempt.tx, 0, a) else 0)
    + PulledOver(env, Commit(env, w, attempt).world, history[1..], a)
  }

  function PaidOver(env: Env, w: World, history: seq<Attempt>, a: Address): (n: nat)
    requires |env.buffers.known| < 255
    decreases |history|
  {
    if history == [] then 0 else
    var attempt := history[0];
    (if RunTx(env, attempt.now, attempt.tx, w).Ok? then PaidFrom(env, attempt.tx, 0, a) else 0)
    + PaidOver(env, Commit(env, w, attempt).world, history[1..], a)
  }

  /** Over any history the recorded totals of an order are exactly what begins pulled for it and what
      finalizes paid for it. */
  lemma {:induction false} HistoryRecords(env: Env, w: World, history: seq<Attempt>, a: Address)
    requires |env.buffers.known| < 255
    ensures var run := RunHistory(env, w, history).1;
      TotalWithdrawn(run, a) == PulledOver(env, w, history, a) && TotalReceived(run, a) == PaidOver(env, w, history, a)
    decreases |history|
  {
    if history != [] {
      var attempt := history[0];
      var first := Commit(env, w, attempt);
      if RunTx(env, attempt.now, attempt.tx, w).Ok? {
        TransactionRecords(env, attempt.now, attempt.tx, w, a);
      }
      HistoryRecords(env, first.world, history[1..], a);
      TotalsAppend(Stamp(attempt.now, first.events), RunHistory(env, first.world, history[1..]).1, a);
    }
  }

  /** So over any history the funds themselves obey the bounds: all incarnations of an order together
      give up at most the sell amount per live creation, and are paid at least the limit price. */
  lemma FundsObeyLifetimeBounds(env: Env, w: World, history: seq<Attempt>, a: Address, intent: Intent.OrderIntent)
    requires |env.buffers.known| < 255 && StateAccounts.WellFormed(w.state) && OrdersOk(env, w.orders)
    requires OnlyIntent(env, a, intent) && a !in w.orders
    ensures PulledOver(env, w, history, a) <= intent.sellAmount * LiveCreations(RunHistory(env, w, history).1, a)
    ensures PaidOver(env, w, history, a) * intent.sellAmount >= PulledOver(env, w, history, a) * intent.buyAmount
  {
    LifetimeBoundsHold(env, w, history, a, intent);
    HistoryRecords(env, w, history, a);
  }
}
