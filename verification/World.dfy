/** The accounts the program works on, the deployment it runs under, and the events it causes. */
module Worlds {
  import opened Basics
  import opened Intent
  import opened OrderAccounts
  import opened KnownBuffers
  import opened SettleWire
  import opened Ledger
  import StateAccounts

  /** One deployment. Address derivation is abstract: `orderAddress(intent, bump)` is the program
      address derived from the intent's UID and a bump, where one exists. */
  datatype Env = Env(
    programId: Address,
    statePda: Address,
    nativeBuffer: Address,
    sysvar: Address,
    orderAddress: (OrderIntent, Byte) -> Option<Address>,
    buffers: BufferIndex,
    rent: nat -> nat)
  {
    /** What the build of the program guarantees: a collision-free index that pins the native
        buffer under the native marker, and no token buffer at that address. */
    ghost predicate Sound()
    {
      && buffers.Sound()
      && (exists i :: 0 <= i < |buffers.known| && buffers.known[i] == KnownBuffer(NATIVE_MARKER, nativeBuffer))
      && (forall i :: 0 <= i < |buffers.known| && buffers.known[i].address == nativeBuffer ==>
            buffers.known[i].mint == NATIVE_MARKER)
      && (forall mint, bump :: buffers.derive(mint, bump) != Some(nativeBuffer))
    }
  }

  datatype World = World(
    orders: map<Address, OrderBody>,
    state: seq<Byte>,
    tokens: Tokens,
    mints: map<Address, Mint>,
    lamports: Lamports)

  /** An instruction as introspection sees it. */
  datatype Ix = Ix(programId: Address, metas: seq<Meta>, data: seq<Byte>)

  function Signers(metas: seq<Meta>): (s: set<Address>)
    ensures forall a :: a in s <==> exists i :: 0 <= i < |metas| && metas[i].key == a && metas[i].signer
  {
    set m | m in metas && m.signer :: m.key
  }

  predicate ProgramOwned(env: Env, w: World, a: Address)
  {
    a in w.orders || a == env.statePda || a == env.nativeBuffer
  }

  /** `signer` signs as the holder named in the 32 bytes at `slot` of the state account given. */
  ghost predicate SignsAs(env: Env, w: World, signer: Meta, statePda: Address, slot: nat)
  {
    && statePda == env.statePda && |w.state| >= 129 && w.state[0] == 129 && slot <= 97
    && signer.signer && signer.key == w.state[slot..slot + 32]
  }

  /** What a successful instruction did, for the record. */
  datatype Event =
    | Created(order: Address, body: OrderBody, signers: set<Address>, authority: Address)
    | Filled(order: Address, withdrawn: U64, received: U64)
    | Cancelled(order: Address, signers: set<Address>, authority: Address)
    | Reclaimed(order: Address, signers: set<Address>)
    | Begun(solver: Address, signers: set<Address>)
    | SolverAdded(solver: Address, signers: set<Address>)
    | SolverRemoved(solver: Address, signers: set<Address>)
    | RoleGiven(role: StateAccounts.Role, holder: Address, signers: set<Address>)

  datatype Outcome = Outcome(world: World, events: seq<Event>)

  /** The highest bump at or below `bump` that derives an order address. */
  function FindOrderFrom(env: Env, intent: OrderIntent, bump: Byte): (r: Option<(Address, Byte)>)
    ensures r.Some? ==> env.orderAddress(intent, r.value.1) == Some(r.value.0) && r.value.1 <= bump
    ensures r.Some? ==> forall higher: Byte :: r.value.1 < higher <= bump ==> env.orderAddress(intent, higher) == None
    ensures r.None? ==> forall b: Byte :: (0 < b || b == bump) && b <= bump ==> env.orderAddress(intent, b) == None
    decreases bump
  {
    match env.orderAddress(intent, bump)
    case Some(a) => Some((a, bump))
    case None => if bump <= 1 then None else FindOrderFrom(env, intent, bump - 1)
  }

  function FindOrder(env: Env, intent: OrderIntent): (r: Option<(Address, Byte)>)
    ensures r.Some? ==> env.orderAddress(intent, r.value.1) == Some(r.value.0)
    ensures r.Some? ==> forall higher: Byte :: r.value.1 < higher ==> env.orderAddress(intent, higher) == None
    ensures r.None? ==> forall b: Byte :: 0 < b ==> env.orderAddress(intent, b) == None
  {
    FindOrderFrom(env, intent, 255)
  }

  function FindBufferFrom(env: Env, mint: Address, bump: Byte): (r: Option<(Address, Byte)>)
    ensures r.Some? ==> env.buffers.derive(mint, r.value.1) == Some(r.value.0) && r.value.1 <= bump
    ensures r.Some? ==> forall higher: Byte :: r.value.1 < higher <= bump ==> env.buffers.derive(mint, higher) == None
    ensures r.None? ==> forall b: Byte :: (0 < b || b == bump) && b <= bump ==> env.buffers.derive(mint, b) == None
    decreases bump
  {
    match env.buffers.derive(mint, bump)
    case Some(a) => Some((a, bump))
    case None => if bump <= 1 then None else FindBufferFrom(env, mint, bump - 1)
  }

  function FindBuffer(env: Env, mint: Address): (r: Option<(Address, Byte)>)
    ensures r.Some? ==> env.buffers.derive(mint, r.value.1) == Some(r.value.0)
    ensures r.Some? ==> forall higher: Byte :: r.value.1 < higher ==> env.buffers.derive(mint, higher) == None
    ensures r.None? ==> forall b: Byte :: 0 < b ==> env.buffers.derive(mint, b) == None
  {
    FindBufferFrom(env, mint, 255)
  }
}
