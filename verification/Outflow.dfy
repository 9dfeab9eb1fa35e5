/** What leaves an account: over every history, the balance this program's executions take out of an
    account that is not one of its buffers is bounded by the orders placed on it. */
module Outflow {
  import opened Basics
  import opened Intent
  import opened SettleWire
  import opened Ledger
  import opened Worlds
  import opened Transactions
  import opened Custody
  import opened Lifecycle
  import opened Histories
  import opened Receipts
  import StateAccounts

  // ---------------------------------------------------------------------------------------
  // Falls of a balance
  // ---------------------------------------------------------------------------------------

  /** By how much the balance at `x` fell. */
  function Fall(t: Tokens, t': Tokens, x: Address): (n: nat)
  {
    if x !in t then 0
    else if x !in t' then t[x].amount
    else if t'[x].amount < t[x].amount then t[x].amount - t'[x].amount else 0
  }

  /** By how much calls into this program lowered it, over what a foreign instruction does. */
  function FallInActs(env: Env, now: int, ixs: seq<Ix>, i: nat, acts: seq<Act>, w: World, x: Address): (n: nat)
    requires |env.buffers.known| < 255
    decreases |acts|
  {
    if acts == [] || DoAct(env, now, ixs, i, acts[0], w).Err? then 0 else
    var w1 := DoAct(env, now, ixs, i, acts[0], w).value.world;
    (if acts[0].Call? && acts[0].ix.programId == env.programId then Fall(w.tokens, w1.tokens, x) else 0)
    + FallInActs(env, now, ixs, i, acts[1..], w1, x)
  }

  /** By how much executions of this program lowered it within one instruction. */
  function FallAt(env: Env, now: int, ixs: seq<Ix>, i: nat, op: Op, w: World, x: Address): (n: nat)
    requires |env.buffers.known| < 255
  {
    if IsOpaque(env, op.ix) then FallInActs(env, now, ixs, i, op.acts, w, x)
    else match Exec(env, now, ixs, i, op, w)
      case Ok(o) => Fall(w.tokens, o.world.tokens, x)
      case Err(_) => 0
  }

  /** The same over the instructions of a transaction from `k` on. */
  function FallFrom(env: Env, now: int, tx: Tx, w: World, k: nat, x: Address): (n: nat)
    requires |env.buffers.known| < 255 && k <= |tx|
    decreases |tx| - k
  {
    if k == |tx| || Exec(env, now, Ixs(tx), k, tx[k], w).Err? then 0 else
    FallAt(env, now, Ixs(tx), k, tx[k], w, x)
    + FallFrom(env, now, tx, Exec(env, now, Ixs(tx), k, tx[k], w).value.world, k + 1, x)
  }

  /** The same over the committed transactions of a history. */
  function FallOver(env: Env, w: World, history: seq<Attempt>, x: Address): (n: nat)
    requires |env.buffers.known| < 255
    decreases |history|
  {
    if history == [] then 0 else
    var attempt := history[0];
    (if RunTx(env, attempt.now, attempt.tx, w).Ok? then FallFrom(env, attempt.now, attempt.tx, w, 0, x) else 0)
    + FallOver(env, Commit(env, w, attempt).world, history[1..], x)
  }

  // ---------------------------------------------------------------------------------------
  // One instruction
  // ---------------------------------------------------------------------------------------

  /** What the instruction at `k` lists as sold from `x`: something only if it is a begin. */
  function SoldAt(env: Env, tx: Tx, k: nat, x: Address): (n: nat)
    requires k < |tx|
  {
    if IsBegin(env, tx[k].ix) && ParseBegin(tx[k].ix.data, tx[k].ix.metas).Ok?
    then SoldFrom(OrdersOf(tx[k].ix), x) else 0
  }

  function SoldTx(env: Env, tx: Tx, k: nat, x: Address): (n: nat)
    requires k <= |tx|
    decreases |tx| - k
  {
    if k == |tx| then 0 else SoldAt(env, tx, k, x) + SoldTx(env, tx, k + 1, x)
  }

  lemma {:induction false} ActsTakeNothing(env: Env, now: int, ixs: seq<Ix>, i: nat, acts: seq<Act>, w: World, x: Address)
    requires |env.buffers.known| < 255 && !IsBuffer(env, x)
    ensures FallInActs(env, now, ixs, i, acts, w, x) == 0
    decreases |acts|
  {
    if acts != [] && DoAct(env, now, ixs, i, acts[0], w).Ok? {
      if acts[0].Call? && acts[0].ix.programId == env.programId && x in w.tokens {
        OthersSpareUsers(env, now, true, ixs, i, acts[0].ix, w, x);
      }
      ActsTakeNothing(env, now, ixs, i, acts[1..], DoAct(env, now, ixs, i, acts[0], w).value.world, x);
    }
  }

  lemma OwnStepTakes(env: Env, now: int, tx: Tx, ws: seq<World>, k: nat, x: Address)
    requires env.Sound() && Committed(env, now, tx, ws) && k < |tx| && !IsOpaque(env, tx[k].ix) && !IsBuffer(env, x)
    ensures Fall(ws[k].tokens, ws[k + 1].tokens, x) <= SoldAt(env, tx, k, x)
  {
    if x in ws[k].tokens {
      if IsBegin(env, tx[k].ix) {
        BeginMoves(env, now, tx, ws, k, x);
      } else if IsFinalize(env, tx[k].ix) {
        FinalizeDebitsBuffersOnly(env, now, tx, ws, k, x);
      } else {
        assert StepAt(env, now, tx, ws, k);
        OthersSpareUsers(env, now, false, Ixs(tx), k, tx[k].ix, ws[k], x);
      }
    }
  }

  /** One instruction of a committed transaction lowers `x` by no more than it lists as sold from
      it. */
  lemma StepTakes(env: Env, now: int, tx: Tx, ws: seq<World>, k: nat, x: Address)
    requires env.Sound() && Committed(env, now, tx, ws) && k < |tx| && !IsBuffer(env, x)
    ensures Exec(env, now, Ixs(tx), k, tx[k], ws[k]).Ok?
    ensures Exec(env, now, Ixs(tx), k, tx[k], ws[k]).value.world == ws[k + 1]
    ensures FallAt(env, now, Ixs(tx), k, tx[k], ws[k], x) <= SoldAt(env, tx, k, x)
  {
    assert StepAt(env, now, tx, ws, k);
    if IsOpaque(env, tx[k].ix) {
      ActsTakeNothing(env, now, Ixs(tx), k, tx[k].acts, ws[k], x);
    } else {
      OwnStepTakes(env, now, tx, ws, k, x);
    }
  }

  lemma {:induction false} TransactionTakes(env: Env, now: int, tx: Tx, ws: seq<World>, k: nat, x: Address)
    requires env.Sound() && Committed(env, now, tx, ws) && k <= |tx| && !IsBuffer(env, x)
    ensures FallFrom(env, now, tx, ws[k], k, x) <= SoldTx(env, tx, k, x)
    decreases |tx| - k
  {
    if k < |tx| {
      StepTakes(env, now, tx, ws, k, x);
      TransactionTakes(env, now, tx, ws, k + 1, x);
    }
  }

  // ---------------------------------------------------------------------------------------
  // Orders placed on the account
  // ---------------------------------------------------------------------------------------

  /** The addresses of the orders a batch sells from `x`. */
  function Placed(orders: seq<SettledOrder<Meta>>, x: Address): (s: set<Address>)
  {
    set k | 0 <= k < |orders| && orders[k].sellAccount.key == x :: orders[k].orderPda.key
  }

  function PlacedAt(env: Env, tx: Tx, k: nat, x: Address): (s: set<Address>)
    requires k < |tx|
  {
    if IsBegin(env, tx[k].ix) && ParseBegin(tx[k].ix.data, tx[k].ix.metas).Ok?
    then Placed(OrdersOf(tx[k].ix), x) else {}
  }

  function PlacedTx(env: Env, tx: Tx, k: nat, x: Address): (s: set<Address>)
    requires k <= |tx|
    decreases |tx| - k
  {
    if k == |tx| then {} else PlacedAt(env, tx, k, x) + PlacedTx(env, tx, k + 1, x)
  }

  /** The addresses of all orders that the committed transactions of a history sell from `x`. */
  function PlacedOver(env: Env, w: World, history: seq<Attempt>, x: Address): (s: set<Address>)
    requires |env.buffers.known| < 255
    decreases |history|
  {
    if history == [] then {} else
    var attempt := history[0];
    (if RunTx(env, attempt.now, attempt.tx, w).Ok? then PlacedTx(env, attempt.tx, 0, x) else {})
    + PlacedOver(env, Commit(env, w, attempt).world, history[1..], x)
  }

  // ---------------------------------------------------------------------------------------
  // Sums over a set of orders
  // ---------------------------------------------------------------------------------------

  /** The sum of `f` over the addresses in `s`. */
  ghost function SumOver(s: set<Address>, f: Address -> nat): (n: nat)
  {
    Total(map a | a in s :: f(a))
  }

  lemma SumWithout(s: set<Address>, f: Address -> nat, a: Address)
    requires a in s
    ensures SumOver(s, f) == f(a) + SumOver(s - {a}, f)
  {
    var m: map<Address, nat> := map b | b in s :: f(b);
    TotalWithout(m, a);
    assert m - {a} == (map b | b in s - {a} :: f(b));
  }

  lemma {:induction false} SumAdds(s: set<Address>, f: Address -> nat, g: Address -> nat, h: Address -> nat)
    requires forall a :: a in s ==> h(a) == f(a) + g(a)
    ensures SumOver(s, h) == SumOver(s, f) + SumOver(s, g)
    decreases |s|
  {
    if s == {} {
      assert (map a | a in s :: f(a)) == map[] && (map a | a in s :: g(a)) == map[] && (map a | a in s :: h(a)) == map[];
    } else {
      var a :| a in s;
      SumWithout(s, f, a);
      SumWithout(s, g, a);
      SumWithout(s, h, a);
      SumAdds(s - {a}, f, g, h);
    }
  }

  lemma {:induction false} SumAtMost(s: set<Address>, f: Address -> nat, g: Address -> nat)
    requires forall a :: a in s ==> f(a) <= g(a)
    ensures SumOver(s, f) <= SumOver(s, g)
    decreases |s|
  {
    if s == {} {
      assert (map a | a in s :: f(a)) == (map a | a in s :: g(a));
    } else {
      var a :| a in s;
      SumWithout(s, f, a);
      SumWithout(s, g, a);
      SumAtMost(s - {a}, f, g);
    }
  }

  // ---------------------------------------------------------------------------------------
  // What is sold from the account is pulled for its orders
  // ---------------------------------------------------------------------------------------

  /** What the first order of a batch pulls, if it is the one at `a`. */
  function FirstPull(o: SettledOrder<Meta>, a: Address): (n: nat)
  {
    if o.orderPda.key == a then Sum(o.amounts) else 0
  }

  lemma {:induction false} BatchSells(orders: seq<SettledOrder<Meta>>, x: Address, s: set<Address>)
    requires Placed(orders, x) <= s
    ensures SoldFrom(orders, x) <= SumOver(s, a => PulledFor(orders, a))
    decreases |orders|
  {
    if orders != [] {
      var o, rest := orders[0], orders[1..];
      assert Placed(rest, x) <= s by {
        assert forall k :: 0 <= k < |rest| ==> rest[k] == orders[k + 1];
      }
      BatchSells(rest, x, s);
      SumAdds(s, a => FirstPull(o, a), a => PulledFor(rest, a), a => PulledFor(orders, a));
      if o.sellAccount.key == x {
        assert o.orderPda.key in Placed(orders, x);
        SumWithout(s, a => FirstPull(o, a), o.orderPda.key);
      }
    }
  }

  lemma {:induction false} TransactionSells(env: Env, tx: Tx, k: nat, x: Address, s: set<Address>)
    requires k <= |tx| && PlacedTx(env, tx, k, x) <= s
    ensures SoldTx(env, tx, k, x) <= SumOver(s, a => PulledFrom(env, tx, k, a))
    decreases |tx| - k
  {
    if k < |tx| {
      TransactionSells(env, tx, k + 1, x, s);
      if IsBegin(env, tx[k].ix) && ParseBegin(tx[k].ix.data, tx[k].ix.metas).Ok? {
        var orders := OrdersOf(tx[k].ix);
        BatchSells(orders, x, s);
        SumAtMost(s, a => PulledFor(orders, a), a => PulledAt(env, tx, k, a));
      }
      SumAdds(s, a => PulledAt(env, tx, k, a), a => PulledFrom(env, tx, k + 1, a), a => PulledFrom(env, tx, k, a));
    }
  }

  /** What the first attempt of a history pulls for the order at `a`, if it commits. */
  function PulledFirst(env: Env, w: World, attempt: Attempt, a: Address): (n: nat)
    requires |env.buffers.known| < 255
  {
    if RunTx(env, attempt.now, attempt.tx, w).Ok? then PulledFrom(env, attempt.tx, 0, a) else 0
  }

  lemma AttemptTakes(env: Env, w: World, attempt: Attempt, x: Address, s: set<Address>)
    requires env.Sound() && !IsBuffer(env, x) && RunTx(env, attempt.now, attempt.tx, w).Ok?
    requires PlacedTx(env, attempt.tx, 0, x) <= s
    ensures FallFrom(env, attempt.now, attempt.tx, w, 0, x) <= SumOver(s, a => PulledFirst(env, w, attempt, a))
  {
    var ws := RunIsCommitted(env, attempt.now, attempt.tx, w);
    TransactionTakes(env, attempt.now, attempt.tx, ws, 0, x);
    TransactionSells(env, attempt.tx, 0, x, s);
    SumAtMost(s, a => PulledFrom(env, attempt.tx, 0, a), a => PulledFirst(env, w, attempt, a));
  }

  /** Over any history, executions of this program take no more out of an account that is not a
      buffer than is pulled, all in all, for the orders placed on it. */
  lemma {:induction false} HistoryTakes(env: Env, w: World, history: seq<Attempt>, x: Address, s: set<Address>)
    requires env.Sound() && !IsBuffer(env, x) && PlacedOver(env, w, history, x) <= s
    ensures FallOver(env, w, history, x) <= SumOver(s, a => PulledOver(env, w, history, a))
    decreases |history|
  {
    if history != [] {
      var attempt, rest := history[0], history[1..];
      var w1 := Commit(env, w, attempt).world;
      HistoryTakes(env, w1, rest, x, s);
      if RunTx(env, attempt.now, attempt.tx, w).Ok? {
        AttemptTakes(env, w, attempt, x, s);
      }
      SumAdds(s, a => PulledFirst(env, w, attempt, a), a => PulledOver(env, w1, rest, a), a => PulledOver(env, w, history, a));
    }
  }

  /** The sell amount of the order at `a`, once per live creation of it in the run. */
  ghost function Granted(intents: map<Address, OrderIntent>, run: seq<Stamped>, a: Address): (n: nat)
    ensures a in intents ==> n == intents[a].sellAmount * LiveCreations(run, a)
  {
    if a !in intents then 0 else
    AllowanceIsProduct(run, a, intents[a].sellAmount);
    Allowance(run, a, intents[a].sellAmount)
  }

  /** Over any history, an account that is not a buffer loses to this program at most the sell amount
      of each order placed on it, once per live creation of that order. */
  lemma AccountOutflowBounded(env: Env, w: World, history: seq<Attempt>, x: Address, intents: map<Address, OrderIntent>)
    requires env.Sound() && !IsBuffer(env, x) && StateAccounts.WellFormed(w.state) && OrdersOk(env, w.orders)
    requires PlacedOver(env, w, history, x) <= intents.Keys
    requires forall a :: a in intents ==> OnlyIntent(env, a, intents[a]) && a !in w.orders
    ensures FallOver(env, w, history, x) <= SumOver(intents.Keys, a => Granted(intents, RunHistory(env, w, history).1, a))
  {
    HistoryTakes(env, w, history, x, intents.Keys);
    forall a | a in intents.Keys
      ensures PulledOver(env, w, history, a) <= Granted(intents, RunHistory(env, w, history).1, a)
    {
      FundsObeyLifetimeBounds(env, w, history, a, intents[a]);
    }
    SumAtMost(intents.Keys, a => PulledOver(env, w, history, a),
              a => Granted(intents, RunHistory(env, w, history).1, a));
  }
}
