/** A deployment, a ledger and two orders that swap two tokens: the assumptions of the settlement
    theorem hold together, so the theorem speaks of something. */
module SwapExample {
  import opened Basics
  import opened Intent
  import opened KnownBuffers
  import opened Ledger
  import opened Worlds
  import opened OrderAccounts
  import opened Client
  import opened Cli
  import opened Commits
  import opened Custody
  import opened Transactions
  import opened Settlements
  import SettleBuild
  import StateAccounts

  const ZEROS: seq<Byte> :=
    [0, 0, 0, 0, 0, 0, 0, 0, 0, 0, 0, 0, 0, 0, 0, 0, 0, 0, 0, 0, 0, 0, 0, 0, 0, 0, 0, 0, 0, 0]

  /** An address told apart by its first two bytes. */
  function At(x: Byte, y: Byte): (a: Address)
    ensures a[0] == x && a[1] == y
  {
    [x, y] + ZEROS
  }

  function Env0(): (env: Env)
  {
    Env(At(1, 0), At(2, 0), At(3, 0), At(4, 0),
        (intent: OrderIntent, bump: Byte) => Some(intent.owner[0 := 5]),
        BufferIndex([KnownBuffer(NATIVE_MARKER, At(3, 0))], 1, (mint: Address, bump: Byte) => Some(mint[0 := 6])),
        n => 1)
  }

  function Finder0(): (finder: Finder)
  {
    Finder((intent: OrderIntent) => intent.owner[0 := 5], (mint: Address) => (mint[0 := 6], 0), (At(3, 0), 0), At(2, 0))
  }

  /** Owner `n` sells one unit of mint `x` for one of mint `y`. */
  function Swap(n: Byte, x: Byte, y: Byte): (intent: OrderIntent)
  {
    OrderIntent(At(10, n), TokenAsset(At(20, x), At(30, n)), Token(TokenAsset(At(20, y), At(40, n))), 1, 1, 0,
                Flags(Sell, false), At(0, 0))
  }

  function Intents(): (intents: seq<OrderIntent>) { [Swap(1, 1, 2), Swap(2, 2, 1)] }

  function Body(n: Byte, x: Byte, y: Byte): (b: OrderBody) { OrderBody(0, false, 0, 0, At(10, n), Swap(n, x, y)) }

  function Header(): (bytes: seq<Byte>)
    ensures |bytes| == 129 && bytes[0] == 129
  {
    [129] + At(0, 0) + At(0, 0) + At(0, 0) + At(0, 0)
  }

  const SOLVER: Address := At(50, 0)

  function World0(): (w: World)
  {
    World(map[At(5, 1) := Body(1, 1, 2), At(5, 2) := Body(2, 2, 1)],
          Header() + SOLVER,
          map[At(30, 1) := TokenAccount(SplToken, At(20, 1), At(10, 1), Some(At(2, 0)), 1, 1),
              At(40, 1) := TokenAccount(SplToken, At(20, 2), At(10, 1), None, 0, 0),
              At(30, 2) := TokenAccount(SplToken, At(20, 2), At(10, 2), Some(At(2, 0)), 1, 1),
              At(40, 2) := TokenAccount(SplToken, At(20, 1), At(10, 2), None, 0, 0),
              At(6, 1) := TokenAccount(SplToken, At(20, 1), At(2, 0), None, 0, 0),
              At(6, 2) := TokenAccount(SplToken, At(20, 2), At(2, 0), None, 0, 0)],
          map[], map[])
  }

  lemma Moved(x: Byte, y: Byte, z: Byte)
    ensures At(x, y)[0 := z] == At(z, y)
  {}

  lemma SoundDeployment()
    ensures Env0().Sound() && FinderAgrees(Env0(), Finder0())
  {
    var env := Env0();
    assert env.buffers.known[0] == KnownBuffer(NATIVE_MARKER, env.nativeBuffer);
    forall mint: Address, bump: Byte ensures env.buffers.derive(mint, bump) != Some(env.nativeBuffer) {
      assert mint[0 := 6][0] == 6;
    }
  }

  lemma SolverListed()
    ensures StateAccounts.Attachable(World0().state) && StateAccounts.IsSolver(World0().state, SOLVER)
  {
    var state := World0().state;
    assert StateAccounts.Region(state)[0] == state[129..161] == SOLVER;
  }

  lemma OrderIsPrepared(n: Byte, x: Byte, y: Byte)
    requires (n, x, y) == (1, 1, 2) || (n, x, y) == (2, 2, 1)
    ensures OrderPrepared(Env0(), 0, Finder0(), World0(), Swap(n, x, y))
  {
    Moved(10, n, 5);
    Moved(20, x, 6);
    Moved(20, y, 6);
    assert At(20, y)[0] != NATIVE_MARKER[0];
  }

  lemma TwoLegs(p: Leg, q: Leg, a: Address)
    ensures SumFor([p, q], a) == LegAt(p, a) + LegAt(q, a)
  {
    assert [p, q][1..] == [q] && [q][1..] == [];
    assert SumFor([q][1..], a) == 0;
  }

  lemma Sums(a: Address)
    ensures SumFor(SoldLegs(Intents()), a) == LegAt(Leg(At(30, 1), 1), a) + LegAt(Leg(At(30, 2), 1), a)
    ensures SumFor(PulledLegs(Finder0(), Intents()), a) == LegAt(Leg(At(6, 1), 1), a) + LegAt(Leg(At(6, 2), 1), a)
    ensures SumFor(BoughtLegs(Intents()), a) == LegAt(Leg(At(40, 1), 1), a) + LegAt(Leg(At(40, 2), 1), a)
  {
    Moved(20, 1, 6);
    Moved(20, 2, 6);
    assert SoldLegs(Intents()) == [Leg(At(30, 1), 1), Leg(At(30, 2), 1)];
    assert PulledLegs(Finder0(), Intents()) == [Leg(At(6, 1), 1), Leg(At(6, 2), 1)];
    assert BoughtLegs(Intents()) == [Leg(At(40, 1), 1), Leg(At(40, 2), 1)];
    TwoLegs(Leg(At(30, 1), 1), Leg(At(30, 2), 1), a);
    TwoLegs(Leg(At(6, 1), 1), Leg(At(6, 2), 1), a);
    TwoLegs(Leg(At(40, 1), 1), Leg(At(40, 2), 1), a);
  }

  lemma BalancesDoSuffice()
    ensures BalancesSuffice(Env0(), Finder0(), World0().tokens, Intents())
  {
    var t := World0().tokens;
    forall a | a in t
      ensures Enough(Env0().statePda, t[a], SumFor(SoldLegs(Intents()), a), SumFor(PulledLegs(Finder0(), Intents()), a))
      ensures t[a].amount + SumFor(PulledLegs(Finder0(), Intents()), a) + SumFor(BoughtLegs(Intents()), a) <= U64_MAX
    {
      Sums(a);
    }
  }

  lemma MintsDiffer()
    ensures BuffersDistinct(Finder0(), Intents()) && DistinctOrders(Finder0(), Intents())
  {
    Moved(20, 1, 6);
    Moved(20, 2, 6);
    Moved(10, 1, 5);
    Moved(10, 2, 5);
    forall m | Traded(Intents(), m) ensures m == At(20, 1) || m == At(20, 2) {}
    assert At(6, 1)[1] != At(6, 2)[1] && At(5, 1)[1] != At(5, 2)[1];
  }

  lemma SwapBalances()
    ensures Simulate(TradesOf(Intents())).Ok?
  {
    var trades := TradesOf(Intents());
    var sells, buys := SellLegs(trades), BuyLegs(trades);
    assert sells == [Leg(At(20, 1), 1), Leg(At(20, 2), 1)] && buys == [Leg(At(20, 2), 1), Leg(At(20, 1), 1)];
    DepositExact(map[], sells);
    forall mint: Address ensures SumFor(sells, mint) == SumFor(buys, mint) <= 2 {
      TwoLegs(sells[0], sells[1], mint);
      TwoLegs(buys[0], buys[1], mint);
    }
    WithdrawExact(Deposit(map[], sells).value, buys);
  }

  lemma OrdersArePrepared()
    ensures forall i :: 0 <= i < |Intents()| ==> OrderPrepared(Env0(), 0, Finder0(), World0(), Intents()[i])
  {
    OrderIsPrepared(1, 1, 2);
    OrderIsPrepared(2, 2, 1);
    forall i | 0 <= i < |Intents()| ensures OrderPrepared(Env0(), 0, Finder0(), World0(), Intents()[i]) {
      assert i == 0 || i == 1;
    }
  }

  lemma Assemble(env: Env, finder: Finder, solver: Address, w: World, intents: seq<OrderIntent>)
    requires env.Sound() && FinderAgrees(env, finder) && BuffersDistinct(finder, intents)
    requires DistinctOrders(finder, intents) && |intents| <= 255 && w.lamports == map[]
    requires StateAccounts.Attachable(w.state) && StateAccounts.IsSolver(w.state, solver)
    requires forall i :: 0 <= i < |intents| ==> OrderPrepared(env, 0, finder, w, intents[i])
    requires BalancesSuffice(env, finder, w.tokens, intents)
    ensures Prepared(env, 0, finder, solver, w, intents)
  {}

  /** Everything the settlement of the two orders needs holds of this deployment and ledger. */
  lemma SwapIsPrepared()
    ensures Prepared(Env0(), 0, Finder0(), SOLVER, World0(), Intents()) && Simulate(TradesOf(Intents())).Ok?
  {
    SoundDeployment();
    SolverListed();
    OrdersArePrepared();
    BalancesDoSuffice();
    MintsDiffer();
    SwapBalances();
    Assemble(Env0(), Finder0(), SOLVER, World0(), Intents());
  }

  /** Nor are the sellers' accounts buffers, so what is proved of other accounts applies to them. */
  lemma SellersAreNotBuffers(n: Byte)
    ensures !IsBuffer(Env0(), At(30, n))
  {
    forall mint: Address, bump: Byte ensures Env0().buffers.derive(mint, bump) != Some(At(30, n)) {
      assert mint[0 := 6][0] == 6;
    }
  }

  /** The pair built for the two orders commits on this ledger and completes both. */
  lemma SwapCommits(tx: Tx) returns (w': World)
    requires |tx| == 2
    requires tx[0].ix == BeginIxOf(SettleBuild.Ids(At(4, 0), At(0, 0), At(0, 0)), At(1, 0),
                                   BeginFor(Finder0(), SOLVER, 0, Intents()))
    requires tx[1].ix == FinalizeIxOf(SettleBuild.Ids(At(4, 0), At(0, 0), At(0, 0)), At(1, 0),
                                      FinalizeFor(Finder0(), 0, Intents()))
    ensures |Env0().buffers.known| < 255
    ensures RunTx(Env0(), 0, tx, World0()).Ok? && RunTx(Env0(), 0, tx, World0()).value.world == w'
    ensures Completed(Finder0(), World0(), w', Intents()[0]) && Completed(Finder0(), World0(), w', Intents()[1])
  {
    SwapIsPrepared();
    w' := CliSettlementCommits(Env0(), 0, Finder0(), SettleBuild.Ids(At(4, 0), At(0, 0), At(0, 0)), SOLVER, Intents(),
                               tx, 0, [World0()]);
  }
}
