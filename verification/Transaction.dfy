/** Whole transactions: instructions run in order over one world, all or nothing, with foreign
    programs free to act in between. */
module Transactions {
  import opened Basics
  import opened Intent
  import opened KnownBuffers
  import opened SettleWire
  import opened Ledger
  import opened Worlds
  import opened Settle
  import OrderHandlers
  import AdminHandlers
  import BufferHandlers

  /** What a foreign program may do: rewrite the token and lamport ledgers, or call this
      program. */
  datatype Act =
    | Write(tokens: Tokens, mints: map<Address, Mint>, lamports: Lamports)
    | Call(ix: Ix)

  /** A top-level instruction; `acts` is what it does when its code is not modelled here. */
  datatype Op = Op(ix: Ix, acts: seq<Act>)

  type Tx = seq<Op>

  function Ixs(tx: Tx): (ixs: seq<Ix>)
    ensures |ixs| == |tx|
  {
    seq(|tx|, i requires 0 <= i < |tx| => tx[i].ix)
  }

  /** Only the owning program debits an account: foreign code never lowers the lamports of an
      order, the state account or the native buffer. */
  predicate LegalWrite(env: Env, w: World, l: Lamports)
  {
    && (forall a | a in w.orders :: Get(l, a) >= Get(w.lamports, a))
    && Get(l, env.statePda) >= Get(w.lamports, env.statePda)
    && Get(l, env.nativeBuffer) >= Get(w.lamports, env.nativeBuffer)
  }

  /** This program's entry point. Creating a buffer only adds to the token ledger, so it is run
      as foreign acts; initialising succeeds once, before any world considered here. */
  function Dispatch(env: Env, now: int, cpi: bool, ixs: seq<Ix>, i: nat, ix: Ix, w: World): (r: Result<Outcome>)
    requires |env.buffers.known| < 255
  {
    var (kind, body) :- RecoverDiscriminator(ix.data);
    match kind
    case BeginSettle => ProcessBegin(env, now, cpi, ixs, i, ix, w)
    case FinalizeSettle => ProcessFinalize(env, cpi, ixs, i, ix, w)
    case CreateOrder => OrderHandlers.ProcessCreateOrder(env, w, ix.metas, body)
    case Initialize => Err(AccountAlreadyInitialized)
    case CreateBuffer => Ok(Outcome(w, []))
    case ReclaimOrder => OrderHandlers.ProcessReclaimOrder(env, now, w, ix.metas, body)
    case ReclaimBuffer => BufferHandlers.ProcessReclaimBuffer(env, w, ix.metas, body)
    case TransferAuthority => AdminHandlers.ProcessTransferAuthority(env, w, ix.metas, body)
    case AddSolver => AdminHandlers.ProcessAddSolver(env, w, ix.metas, body)
    case RemoveSolver => AdminHandlers.ProcessRemoveSolver(env, w, ix.metas, body)
    case CreateSettlementOwnedOrder => OrderHandlers.ProcessCreateSettlementOwnedOrder(env, w, ix.metas, body)
    case CancelOrder => OrderHandlers.ProcessCancelOrder(env, w, ix.metas, body)
    case WithdrawNativeSol => AdminHandlers.ProcessWithdrawNativeSol(env, w, ix.metas, body)
  }

  /** The first data byte alone selects the handler, and the rest is its input. */
  lemma DispatchTable(env: Env, now: int, cpi: bool, ixs: seq<Ix>, i: nat, ix: Ix, w: World)
    requires |env.buffers.known| < 255
    ensures var r := Dispatch(env, now, cpi, ixs, i, ix, w);
      if ix.data == [] || ix.data[0] > 12 then r == Err(InvalidInstructionData) else
      var body := ix.data[1..];
      && (ix.data[0] == 0 ==> r == ProcessBegin(env, now, cpi, ixs, i, ix, w))
      && (ix.data[0] == 1 ==> r == ProcessFinalize(env, cpi, ixs, i, ix, w))
      && (ix.data[0] == 2 ==> r == OrderHandlers.ProcessCreateOrder(env, w, ix.metas, body))
      && (ix.data[0] == 3 ==> r == Err(AccountAlreadyInitialized))
      && (ix.data[0] == 4 ==> r == Ok(Outcome(w, [])))
      && (ix.data[0] == 5 ==> r == OrderHandlers.ProcessReclaimOrder(env, now, w, ix.metas, body))
      && (ix.data[0] == 6 ==> r == BufferHandlers.ProcessReclaimBuffer(env, w, ix.metas, body))
      && (ix.data[0] == 7 ==> r == AdminHandlers.ProcessTransferAuthority(env, w, ix.metas, body))
      && (ix.data[0] == 8 ==> r == AdminHandlers.ProcessAddSolver(env, w, ix.metas, body))
      && (ix.data[0] == 9 ==> r == AdminHandlers.ProcessRemoveSolver(env, w, ix.metas, body))
      && (ix.data[0] == 10 ==> r == OrderHandlers.ProcessCreateSettlementOwnedOrder(env, w, ix.metas, body))
      && (ix.data[0] == 11 ==> r == OrderHandlers.ProcessCancelOrder(env, w, ix.metas, body))
      && (ix.data[0] == 12 ==> r == AdminHandlers.ProcessWithdrawNativeSol(env, w, ix.metas, body))
  {}

  function DoAct(env: Env, now: int, ixs: seq<Ix>, i: nat, act: Act, w: World): (r: Result<Outcome>)
    requires |env.buffers.known| < 255
  {
    match act
    case Write(tokens, mints, lamports) =>
      if LegalWrite(env, w, lamports)
      then Ok(Outcome(w.(tokens := tokens, mints := mints, lamports := lamports), []))
      else Err(IllegalForeignWrite)
    case Call(ix) =>
      if ix.programId == env.programId then Dispatch(env, now, true, ixs, i, ix, w) else Ok(Outcome(w, []))
  }

  function DoActs(env: Env, now: int, ixs: seq<Ix>, i: nat, acts: seq<Act>, w: World): (r: Result<Outcome>)
    requires |env.buffers.known| < 255
    decreases |acts|
  {
    if acts == [] then Ok(Outcome(w, [])) else
    var first :- DoAct(env, now, ixs, i, acts[0], w);
    var rest :- DoActs(env, now, ixs, i, acts[1..], first.world);
    Ok(Outcome(rest.world, first.events + rest.events))
  }

  /** The instruction's code is outside the model: another program's, or CreateBuffer's. */
  predicate IsOpaque(env: Env, ix: Ix)
  {
    ix.programId != env.programId
    || (RecoverDiscriminator(ix.data).Ok? && RecoverDiscriminator(ix.data).value.0.CreateBuffer?)
  }

  function Exec(env: Env, now: int, ixs: seq<Ix>, i: nat, op: Op, w: World): (r: Result<Outcome>)
    requires |env.buffers.known| < 255
  {
    if IsOpaque(env, op.ix) then DoActs(env, now, ixs, i, op.acts, w)
    else Dispatch(env, now, false, ixs, i, op.ix, w)
  }

  /** The outcome of the instructions from `k` on; the first failure decides. */
  function RunFrom(env: Env, now: int, tx: Tx, w: World, k: nat): (r: Result<Outcome>)
    requires |env.buffers.known| < 255 && k <= |tx|
    decreases |tx| - k
  {
    if k == |tx| then Ok(Outcome(w, [])) else
    var first :- Exec(env, now, Ixs(tx), k, tx[k], w);
    var rest :- RunFrom(env, now, tx, first.world, k + 1);
    Ok(Outcome(rest.world, first.events + rest.events))
  }

  /** One more instruction in front of those that run. */
  lemma StepThenRest(env: Env, now: int, tx: Tx, w: World, k: nat, first: Outcome, rest: Outcome)
    requires |env.buffers.known| < 255 && k < |tx|
    requires Exec(env, now, Ixs(tx), k, tx[k], w) == Ok(first) && RunFrom(env, now, tx, first.world, k + 1) == Ok(rest)
    ensures RunFrom(env, now, tx, w, k) == Ok(Outcome(rest.world, first.events + rest.events))
  {}

  /** A transaction commits only when every instruction succeeds. */
  function RunTx(env: Env, now: int, tx: Tx, w: World): (r: Result<Outcome>)
    requires |env.buffers.known| < 255
  {
    RunFrom(env, now, tx, w, 0)
  }

  /** The last two instructions of a transaction both succeed. */
  lemma LastTwoSteps(env: Env, now: int, tx: Tx, w: World, first: Outcome, second: Outcome)
    requires |env.buffers.known| < 255 && |tx| >= 2
    requires Exec(env, now, Ixs(tx), |tx| - 2, tx[|tx| - 2], w) == Ok(first)
    requires Exec(env, now, Ixs(tx), |tx| - 1, tx[|tx| - 1], first.world) == Ok(second)
    ensures RunFrom(env, now, tx, w, |tx| - 2) == Ok(Outcome(second.world, first.events + second.events))
  {
    assert RunFrom(env, now, tx, second.world, |tx|) == Ok(Outcome(second.world, []));
    assert second.events + [] == second.events;
    assert RunFrom(env, now, tx, first.world, |tx| - 1) == Ok(second);
  }

  // ---------------------------------------------------------------------------------------
  // Committed transactions as traces of worlds
  // ---------------------------------------------------------------------------------------

  /** Instruction `i` succeeds on `ws[i]` and leaves `ws[i + 1]`. */
  ghost predicate StepAt(env: Env, now: int, tx: Tx, ws: seq<World>, i: nat)
    requires |env.buffers.known| < 255 && i < |tx| && i + 1 < |ws|
  {
    var r := Exec(env, now, Ixs(tx), i, tx[i], ws[i]);
    r.Ok? && r.value.world == ws[i + 1]
  }

  /** The worlds a committed transaction goes through: every instruction succeeded. */
  ghost predicate Committed(env: Env, now: int, tx: Tx, ws: seq<World>)
  {
    && |env.buffers.known| < 255
    && |ws| == |tx| + 1
    && forall i :: 0 <= i < |tx| ==> StepAt(env, now, tx, ws, i)
  }

  lemma ExtendTrace(env: Env, now: int, tx: Tx, shorter: seq<World>, ws: seq<World>, n: nat)
    requires |env.buffers.known| < 255 && n <= |tx| && |shorter| == n + 1
    requires shorter <= ws
    requires forall i :: 0 <= i < n ==> StepAt(env, now, tx, shorter, i)
    ensures forall i :: 0 <= i < n ==> StepAt(env, now, tx, ws, i)
  {
    forall i | 0 <= i < n ensures StepAt(env, now, tx, ws, i) {
      assert StepAt(env, now, tx, shorter, i);
      assert ws[i] == shorter[i] && ws[i + 1] == shorter[i + 1];
    }
  }

  /** The first `i` instructions succeeded and led through these worlds. */
  ghost predicate Prefix(env: Env, now: int, tx: Tx, i: nat, ws: seq<World>)
  {
    && |env.buffers.known| < 255 && i <= |tx| && |ws| == i + 1
    && forall k :: 0 <= k < i ==> StepAt(env, now, tx, ws, k)
  }

  /** Instruction `k` succeeds and leads from one world to the next. */
  ghost predicate Leads(env: Env, now: int, tx: Tx, k: nat, w: World, w': World)
    requires k < |tx|
  {
    && |env.buffers.known| < 255
    && Exec(env, now, Ixs(tx), k, tx[k], w).Ok? && Exec(env, now, Ixs(tx), k, tx[k], w).value.world == w'
  }

  lemma ExtendPrefix(env: Env, now: int, tx: Tx, i: nat, ws: seq<World>, w: World) returns (longer: seq<World>)
    requires Prefix(env, now, tx, i, ws) && i < |tx| && Leads(env, now, tx, i, ws[i], w)
    ensures Prefix(env, now, tx, i + 1, longer) && longer[i + 1] == w && longer[0] == ws[0]
  {
    longer := ws + [w];
    assert longer[i] == ws[i] && longer[i + 1] == w && longer[0] == ws[0];
    ExtendTrace(env, now, tx, ws, longer, i);
    LeadsIsStep(env, now, tx, longer, i);
    OneMoreStep(env, now, tx, i, longer);
  }

  lemma OneMoreStep(env: Env, now: int, tx: Tx, i: nat, ws: seq<World>)
    requires |env.buffers.known| < 255 && i < |tx| && |ws| == i + 2
    requires (forall k :: 0 <= k < i ==> StepAt(env, now, tx, ws, k)) && StepAt(env, now, tx, ws, i)
    ensures Prefix(env, now, tx, i + 1, ws)
  {}

  lemma LeadsIsStep(env: Env, now: int, tx: Tx, ws: seq<World>, k: nat)
    requires k < |tx| && k + 1 < |ws| && Leads(env, now, tx, k, ws[k], ws[k + 1])
    ensures StepAt(env, now, tx, ws, k)
  {}

  /** The trace so far, continued to the end of the transaction. */
  lemma {:induction false} TraceFrom(env: Env, now: int, tx: Tx, done: seq<World>, k: nat) returns (ws: seq<World>)
    requires |env.buffers.known| < 255 && |done| == k + 1 && k <= |tx|
    requires forall i :: 0 <= i < k ==> StepAt(env, now, tx, done, i)
    requires RunFrom(env, now, tx, done[k], k).Ok?
    ensures Committed(env, now, tx, ws) && done <= ws
    ensures ws[|tx|] == RunFrom(env, now, tx, done[k], k).value.world
    decreases |tx| - k
  {
    if k == |tx| {
      ws := done;
    } else {
      var longer := done + [Exec(env, now, Ixs(tx), k, tx[k], done[k]).value.world];
      ExtendTrace(env, now, tx, done, longer, k);
      ws := TraceFrom(env, now, tx, longer, k + 1);
    }
  }

  /** A transaction that runs through has a trace from its first world to its last. */
  lemma RunIsCommitted(env: Env, now: int, tx: Tx, w: World) returns (ws: seq<World>)
    requires |env.buffers.known| < 255 && RunTx(env, now, tx, w).Ok?
    ensures Committed(env, now, tx, ws)
    ensures ws[0] == w && ws[|tx|] == RunTx(env, now, tx, w).value.world
  {
    ws := TraceFrom(env, now, tx, [w], 0);
  }

  /** A trace is a run: from any point of it, the rest of the transaction runs to its last world. */
  lemma {:induction false} CommittedRuns(env: Env, now: int, tx: Tx, ws: seq<World>, k: nat)
    requires Committed(env, now, tx, ws) && k <= |tx|
    ensures RunFrom(env, now, tx, ws[k], k).Ok? && RunFrom(env, now, tx, ws[k], k).value.world == ws[|tx|]
    decreases |tx| - k
  {
    if k < |tx| {
      CommittedRuns(env, now, tx, ws, k + 1);
      assert StepAt(env, now, tx, ws, k);
    }
  }

  // ---------------------------------------------------------------------------------------
  // Every execution of this program, at the top level or called from foreign code
  // ---------------------------------------------------------------------------------------

  /** Within the instruction at `k`, this program executes `ix` on the world `w`: as that very
      instruction, or called (`cpi`) by one of the acts of a foreign one. */
  ghost predicate Executes(env: Env, now: int, tx: Tx, ws: seq<World>, k: nat, cpi: bool, ix: Ix, w: World)
    requires |env.buffers.known| < 255 && k < |tx| && k < |ws|
  {
    if !IsOpaque(env, tx[k].ix) then !cpi && ix == tx[k].ix && w == ws[k]
    else cpi && ix.programId == env.programId && exists j :: CallsAt(env, now, tx, ws, k, j, ix, w)
  }

  ghost predicate CallsAt(env: Env, now: int, tx: Tx, ws: seq<World>, k: nat, j: nat, ix: Ix, w: World)
    requires |env.buffers.known| < 255 && k < |tx| && k < |ws|
  {
    && j < |tx[k].acts| && tx[k].acts[j] == Call(ix)
    && ReachedBy(env, now, Ixs(tx), k, tx[k].acts[..j], ws[k], w)
  }

  /** The acts lead from `w` to `w'`. */
  ghost predicate ReachedBy(env: Env, now: int, ixs: seq<Ix>, i: nat, acts: seq<Act>, w: World, w': World)
    requires |env.buffers.known| < 255
  {
    DoActs(env, now, ixs, i, acts, w).Ok? && DoActs(env, now, ixs, i, acts, w).value.world == w'
  }

  /** An act of a list that ran through succeeded on the world the acts before it led to. */
  lemma {:induction false} ActSucceeded(env: Env, now: int, ixs: seq<Ix>, i: nat, acts: seq<Act>, w: World, j: nat, u: World)
    requires |env.buffers.known| < 255 && DoActs(env, now, ixs, i, acts, w).Ok? && j < |acts|
    requires ReachedBy(env, now, ixs, i, acts[..j], w, u)
    ensures DoAct(env, now, ixs, i, acts[j], u).Ok?
    decreases |acts|
  {
    if j > 0 {
      assert acts[..j][0] == acts[0] && acts[..j][1..] == acts[1..][..j - 1];
      ActSucceeded(env, now, ixs, i, acts[1..], DoAct(env, now, ixs, i, acts[0], w).value.world, j - 1, u);
    }
  }

  /** In a committed transaction every execution of this program succeeded. */
  lemma ExecutedSucceeded(env: Env, now: int, tx: Tx, ws: seq<World>, k: nat, cpi: bool, ix: Ix, w: World)
    requires Committed(env, now, tx, ws) && k < |tx| && Executes(env, now, tx, ws, k, cpi, ix, w)
    ensures Dispatch(env, now, cpi, Ixs(tx), k, ix, w).Ok?
    ensures !cpi ==> Dispatch(env, now, cpi, Ixs(tx), k, ix, w).value.world == ws[k + 1]
  {
    assert StepAt(env, now, tx, ws, k);
    if cpi {
      var j :| CallsAt(env, now, tx, ws, k, j, ix, w);
      ActSucceeded(env, now, Ixs(tx), k, tx[k].acts, ws[k], j, w);
    }
  }

  // ---------------------------------------------------------------------------------------
  // Pairing
  // ---------------------------------------------------------------------------------------

  predicate IsBegin(env: Env, ix: Ix)
  {
    ix.programId == env.programId && ix.data != [] && ix.data[0] == 0
  }

  predicate IsFinalize(env: Env, ix: Ix)
  {
    ix.programId == env.programId && ix.data != [] && ix.data[0] == 1
  }

  lemma BeginExec(env: Env, now: int, ixs: seq<Ix>, i: nat, op: Op, w: World)
    requires |env.buffers.known| < 255 && IsBegin(env, op.ix)
    ensures Exec(env, now, ixs, i, op, w) == ProcessBegin(env, now, false, ixs, i, op.ix, w)
  {}

  lemma FinalizeExec(env: Env, now: int, ixs: seq<Ix>, i: nat, op: Op, w: World)
    requires |env.buffers.known| < 255 && IsFinalize(env, op.ix)
    ensures Exec(env, now, ixs, i, op, w) == ProcessFinalize(env, false, ixs, i, op.ix, w)
  {}

  /** The index a settle instruction links to. */
  function LinkOf(ix: Ix): (n: nat)
  {
    if |ix.data| < 3 then 0x1_0000 else ix.data[1] as int + 256 * (ix.data[2] as int)
  }

  ghost predicate Pair(env: Env, tx: Tx, b: nat, f: nat)
  {
    && b < f < |tx|
    && IsBegin(env, tx[b].ix) && IsFinalize(env, tx[f].ix)
    && LinkOf(tx[b].ix) == f && LinkOf(tx[f].ix) == b
  }

  lemma CounterpartLinks(env: Env, ixs: seq<Ix>, current: nat, counterpart: nat, expected: Discriminator)
    requires ValidateCounterpart(env, ixs, current, counterpart, expected).Ok?
    ensures counterpart < |ixs| && LinkOf(ixs[counterpart]) == current
    ensures expected.BeginSettle? ==> IsBegin(env, ixs[counterpart])
    ensures expected.FinalizeSettle? ==> IsFinalize(env, ixs[counterpart])
  {
    var data := ixs[counterpart].data;
    assert data[1..][0] == data[1] && data[1..][1] == data[2];
  }

  /** What the success of the BeginSettle at `b` says: its handler ran, on its own parse. */
  lemma BeginRan(env: Env, now: int, tx: Tx, ws: seq<World>, b: nat)
    requires Committed(env, now, tx, ws)
    requires b < |tx| && IsBegin(env, tx[b].ix)
    ensures var r := ProcessBegin(env, now, false, Ixs(tx), b, tx[b].ix, ws[b]);
      r.Ok? && r.value.world == ws[b + 1]
  {
    assert StepAt(env, now, tx, ws, b);
  }

  lemma FinalizeRan(env: Env, now: int, tx: Tx, ws: seq<World>, f: nat)
    requires Committed(env, now, tx, ws)
    requires f < |tx| && IsFinalize(env, tx[f].ix)
    ensures var r := ProcessFinalize(env, false, Ixs(tx), f, tx[f].ix, ws[f]);
      r.Ok? && r.value.world == ws[f + 1]
  {
    assert StepAt(env, now, tx, ws, f);
  }

  lemma ParsedBeginLink(ix: Ix)
    requires ParseBegin(ix.data, ix.metas).Ok?
    ensures ParseBegin(ix.data, ix.metas).value.finalizeIx == LinkOf(ix)
  {
    assert ix.data[1..][0] == ix.data[1] && ix.data[1..][1] == ix.data[2];
  }

  lemma ParsedFinalizeLink(ix: Ix)
    requires ParseFinalize(ix.data, ix.metas).Ok?
    ensures ParseFinalize(ix.data, ix.metas).value.beginIx == LinkOf(ix)
  {
    assert ix.data[1..][0] == ix.data[1] && ix.data[1..][1] == ix.data[2];
  }

  /** A begin's finalize comes later, points back, and no settle instruction lies between. */
  lemma BeginIsPaired(env: Env, now: int, tx: Tx, ws: seq<World>, b: nat)
    requires Committed(env, now, tx, ws)
    requires b < |tx| && IsBegin(env, tx[b].ix)
    ensures Pair(env, tx, b, LinkOf(tx[b].ix))
    ensures forall k :: b < k < LinkOf(tx[b].ix) ==> !IsBegin(env, tx[k].ix) && !IsFinalize(env, tx[k].ix)
  {
    BeginRan(env, now, tx, ws, b);
    var ixs, f := Ixs(tx), LinkOf(tx[b].ix);
    ParsedBeginLink(tx[b].ix);
    assert PairedPushes(env, ixs, b, f).Ok?;
    CounterpartLinks(env, ixs, b, f, FinalizeSettle);
    forall k | b < k < f ensures !IsBegin(env, tx[k].ix) && !IsFinalize(env, tx[k].ix) {
      assert !IsSettleIx(env, ixs[k]);
    }
  }

  /** A finalize only checks that a begin points back at it; that the begin comes first is known
      because the begin ran too. */
  lemma FinalizeIsPaired(env: Env, now: int, tx: Tx, ws: seq<World>, f: nat)
    requires Committed(env, now, tx, ws)
    requires f < |tx| && IsFinalize(env, tx[f].ix)
    ensures Pair(env, tx, LinkOf(tx[f].ix), f)
  {
    FinalizeRan(env, now, tx, ws, f);
    ParsedFinalizeLink(tx[f].ix);
    var b := LinkOf(tx[f].ix);
    CounterpartLinks(env, Ixs(tx), f, b, BeginSettle);
    BeginIsPaired(env, now, tx, ws, b);
  }

  /** In every committed transaction the settle instructions are perfectly matched, each begin
      before its finalize, and the begin-to-finalize intervals are pairwise disjoint. */
  lemma PerfectMatching(env: Env, now: int, tx: Tx, ws: seq<World>)
    requires Committed(env, now, tx, ws)
    ensures forall b :: 0 <= b < |tx| && IsBegin(env, tx[b].ix) ==> Pair(env, tx, b, LinkOf(tx[b].ix))
    ensures forall f :: 0 <= f < |tx| && IsFinalize(env, tx[f].ix) ==> Pair(env, tx, LinkOf(tx[f].ix), f)
    ensures forall b, f, b', f' :: Pair(env, tx, b, f) && Pair(env, tx, b', f') ==>
      (b == b' <==> f == f') && (b != b' ==> f < b' || f' < b)
  {
    forall b | 0 <= b < |tx| && IsBegin(env, tx[b].ix) ensures Pair(env, tx, b, LinkOf(tx[b].ix)) {
      BeginIsPaired(env, now, tx, ws, b);
    }
    forall f | 0 <= f < |tx| && IsFinalize(env, tx[f].ix) ensures Pair(env, tx, LinkOf(tx[f].ix), f) {
      FinalizeIsPaired(env, now, tx, ws, f);
    }
    forall b, f, b', f' | Pair(env, tx, b, f) && Pair(env, tx, b', f')
      ensures (b == b' <==> f == f') && (b != b' ==> f < b' || f' < b)
    {
      BeginIsPaired(env, now, tx, ws, b);
      BeginIsPaired(env, now, tx, ws, b');
    }
  }

  // ---------------------------------------------------------------------------------------
  // Payment
  // ---------------------------------------------------------------------------------------

  function OrdersOf(ix: Ix): (orders: seq<SettledOrder<Meta>>)
    requires ParseBegin(ix.data, ix.metas).Ok?
  {
    SplitOrders(ParseBegin(ix.data, ix.metas).value.orders)
  }

  function PushesOf(ix: Ix): (pushes: seq<Push<Meta>>)
    requires ParseFinalize(ix.data, ix.metas).Ok?
  {
    ParseFinalize(ix.data, ix.metas).value.pushes
  }

  /** Under a sound deployment a push draws on the native buffer exactly when the order buys
      native SOL. */
  lemma NativeExactly(env: Env, source: Address, mint: Address, bump: Byte)
    requires env.Sound() && ValidateBuffer(env.buffers, source, mint, bump).Ok?
    ensures IsBufferOf(env.buffers, source, mint, bump)
    ensures source == env.nativeBuffer <==> mint == NATIVE_MARKER
  {
    var known := env.buffers.known;
    ValidateBufferExact(env.buffers, source, mint, bump);
    var n :| 0 <= n < |known| && known[n] == KnownBuffer(NATIVE_MARKER, env.nativeBuffer);
    if mint == NATIVE_MARKER {
      assert known[n].mint == mint;
      var i :| 0 <= i < |known| && known[i] == KnownBuffer(mint, source);
      assert Slot(known[i].mint, env.buffers.multiplier) == Slot(known[n].mint, env.buffers.multiplier);
    }
  }

  /** Order `k` of the begin at `b` and push `k` of its finalize: the order as stored when the
      begin ran, and what it became. */
  ghost predicate PaidBy(env: Env, now: int, before: World, after: World, o: SettledOrder<Meta>, p: Push<Meta>)
  {
    var a := o.orderPda.key;
    && a in before.orders && a in after.orders
    && SettledAs(env, now, before.orders[a], o, Paired(p), after.orders[a])
    && IsBufferOf(env.buffers, p.source.key, BuyMint(before.orders[a].intent), p.bump)
    && (p.source.key == env.nativeBuffer <==> BuyMint(before.orders[a].intent) == NATIVE_MARKER)
  }

  /** The pushes a begin sees in the finalize it links to. */
  function SeenBy(tx: Tx, b: nat): (r: Result<seq<PairedPush>>)
    requires b < |tx| && LinkOf(tx[b].ix) < |tx|
  {
    var finalize := tx[LinkOf(tx[b].ix)].ix;
    IntrospectPushes(finalize.data, Keys(finalize.metas))
  }

  /** A begin that ran settled its parsed orders against the pushes it saw. */
  lemma BeginSettled(env: Env, now: int, tx: Tx, ws: seq<World>, b: nat)
    requires Committed(env, now, tx, ws)
    requires b < |tx| && IsBegin(env, tx[b].ix) && LinkOf(tx[b].ix) < |tx|
    ensures ParseBegin(tx[b].ix.data, tx[b].ix.metas).Ok? && SeenBy(tx, b).Ok?
    ensures var settled := SettleOrders(env, now, ws[b], OrdersOf(tx[b].ix), SeenBy(tx, b).value, None);
      settled.Ok? && settled.value.world == ws[b + 1]
  {
    BeginRan(env, now, tx, ws, b);
    ParsedBeginLink(tx[b].ix);
  }

  /** The begin and finalize of one pair parse, their lists have the same length, and what the
      begin saw is what the finalize executes. */
  lemma PairParses(env: Env, now: int, tx: Tx, ws: seq<World>, b: nat)
    requires Committed(env, now, tx, ws)
    requires b < |tx| && IsBegin(env, tx[b].ix)
    ensures Pair(env, tx, b, LinkOf(tx[b].ix))
    ensures var begin, finalize := tx[b].ix, tx[LinkOf(tx[b].ix)].ix;
      && ParseBegin(begin.data, begin.metas).Ok? && ParseFinalize(finalize.data, finalize.metas).Ok?
      && SeenBy(tx, b).Ok?
      && |OrdersOf(begin)| == |PushesOf(finalize)| == |SeenBy(tx, b).value|
      && forall k :: 0 <= k < |PushesOf(finalize)| ==> SeenBy(tx, b).value[k] == Paired(PushesOf(finalize)[k])
  {
    BeginIsPaired(env, now, tx, ws, b);
    var f := LinkOf(tx[b].ix);
    FinalizeRan(env, now, tx, ws, f);
    IntrospectionAgrees(tx[f].ix.data, tx[f].ix.metas);
    BeginSettled(env, now, tx, ws, b);
    SettledPairing(env, now, ws[b], OrdersOf(tx[b].ix), SeenBy(tx, b).value, None);
  }

  /** In every committed transaction, order `k` of a begin is paid by push `k` of its finalize:
      the push pays the intent's buy account, from an accepted source distinct from it, exactly
      the amount added to the order's received total, at or above the limit price. Orders the
      begin does not name do not change. */
  lemma EveryOrderIsPaid(env: Env, now: int, tx: Tx, ws: seq<World>, b: nat)
    requires env.Sound() && Committed(env, now, tx, ws)
    requires b < |tx| && IsBegin(env, tx[b].ix)
    ensures Pair(env, tx, b, LinkOf(tx[b].ix))
    ensures ParseBegin(tx[b].ix.data, tx[b].ix.metas).Ok?
    ensures ParseFinalize(tx[LinkOf(tx[b].ix)].ix.data, tx[LinkOf(tx[b].ix)].ix.metas).Ok?
    ensures var orders, pushes := OrdersOf(tx[b].ix), PushesOf(tx[LinkOf(tx[b].ix)].ix);
      var before, after := ws[b], ws[b + 1];
      && |orders| == |pushes|
      && (forall k :: 0 <= k < |orders| ==> PaidBy(env, now, before, after, orders[k], pushes[k]))
      && (forall j, k :: 0 <= j < k < |orders| ==> orders[j].orderPda.key != orders[k].orderPda.key)
      && (forall a :: a in before.orders && !Names(orders, a) ==>
            a in after.orders && after.orders[a] == before.orders[a])
  {
    PairParses(env, now, tx, ws, b);
    var begin, finalize := tx[b].ix, tx[LinkOf(tx[b].ix)].ix;
    var orders, pushes := OrdersOf(begin), PushesOf(finalize);
    var seen := SeenBy(tx, b).value;
    var before, after := ws[b], ws[b + 1];
    BeginSettled(env, now, tx, ws, b);
    GroupSizes(ParseBegin(begin.data, begin.metas).value.orders);
    SettledPairing(env, now, before, orders, seen, None);
    forall j, k | 0 <= j < k < |orders| ensures orders[j].orderPda.key != orders[k].orderPda.key {
      LessAsymmetric(orders[j].orderPda.key, orders[k].orderPda.key);
    }
    forall k | 0 <= k < |orders| ensures PaidBy(env, now, before, after, orders[k], pushes[k]) {
      BatchEffect(env, now, before, orders, seen, None, k);
      var intent := before.orders[orders[k].orderPda.key].intent;
      NativeExactly(env, seen[k].source, BuyMint(intent), seen[k].bump);
    }
    forall a | a in before.orders && !Names(orders, a)
      ensures a in after.orders && after.orders[a] == before.orders[a]
    {
      BatchFrame(env, now, before, orders, seen, None, a);
    }
  }

  /** In every committed transaction, every executed finalize belongs to a begin that settled one
      order per push, and its execution moves exactly those pushes, conserving every asset. */
  lemma EveryPushHasItsOrder(env: Env, now: int, tx: Tx, ws: seq<World>, f: nat)
    requires env.Sound() && Committed(env, now, tx, ws)
    requires f < |tx| && IsFinalize(env, tx[f].ix)
    ensures Pair(env, tx, LinkOf(tx[f].ix), f)
    ensures ParseFinalize(tx[f].ix.data, tx[f].ix.metas).Ok?
    ensures ParseBegin(tx[LinkOf(tx[f].ix)].ix.data, tx[LinkOf(tx[f].ix)].ix.metas).Ok?
    ensures var pushes := PushesOf(tx[f].ix);
      var before, after := ws[f], ws[f + 1];
      var ctx := PayContextOf(env, before);
      && |pushes| == |OrdersOf(tx[LinkOf(tx[f].ix)].ix)|
      && after == before.(tokens := after.tokens, lamports := after.lamports)
      && PushFunds(ctx, Funds(before.tokens, before.lamports), pushes) == Ok(Funds(after.tokens, after.lamports))
      && after.tokens.Keys == before.tokens.Keys
      && (forall a :: a in before.tokens ==>
            after.tokens[a].amount + Debited(ctx, pushes, false, a)
            == before.tokens[a].amount + Credited(ctx, pushes, false, a))
      && (forall a :: Get(after.lamports, a) + Debited(ctx, pushes, true, a)
                   == Get(before.lamports, a) + Credited(ctx, pushes, true, a))
      && (forall mint :: Total(Balances(after.tokens, mint)) == Total(Balances(before.tokens, mint)))
      && Total(after.lamports) == Total(before.lamports)
  {
    FinalizeIsPaired(env, now, tx, ws, f);
    FinalizeRan(env, now, tx, ws, f);
    PairParses(env, now, tx, ws, LinkOf(tx[f].ix));
    var before := ws[f];
    PushFundsEffect(PayContextOf(env, before), Funds(before.tokens, before.lamports), PushesOf(tx[f].ix));
  }
}
