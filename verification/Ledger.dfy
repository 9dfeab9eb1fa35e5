/** The token ledger and the native lamport ledger, and the transfers settlements make on them. */
module Ledger {
  import opened Basics
  import opened SettleWire

  datatype TokenAccount = TokenAccount(
    program: TokenProgram, mint: Address, owner: Address,
    delegate: Option<Address>, allowance: U64, amount: U64)

  datatype Mint = Mint(program: TokenProgram, supply: U64)

  type Tokens = map<Address, TokenAccount>

  type Lamports = map<Address, nat>

  // ---------------------------------------------------------------------------------------
  // Token transfers
  // ---------------------------------------------------------------------------------------

  /** Whether `authority` may move `amount`: as the delegate within its allowance, or as owner. */
  predicate MayMove(account: TokenAccount, authority: Address, amount: U64)
  {
    if account.delegate == Some(authority) then amount <= account.allowance
    else account.owner == authority
  }

  function Debit(account: TokenAccount, authority: Address, amount: U64): (r: TokenAccount)
    requires MayMove(account, authority, amount) && amount <= account.amount
  {
    var left := account.(amount := account.amount - amount);
    if account.delegate != Some(authority) then left
    else left.(allowance := account.allowance - amount,
               delegate := if account.allowance == amount then None else account.delegate)
  }

  /** The token program's transfer: checked, mint-matching, a no-op between equal accounts.
      A named `mint` makes it a `TransferChecked`. */
  function Transfer(t: Tokens, program: TokenProgram, from: Address, to: Address, mint: Option<Address>,
                    authority: Address, amount: U64): (r: Result<Tokens>)
  {
    if from !in t || to !in t then Err(TokenProgramFailure) else
    var src, dst := t[from], t[to];
    if src.program != program || dst.program != program then Err(TokenProgramFailure) else
    if src.mint != dst.mint || (mint.Some? && mint.value != src.mint) then Err(TokenProgramFailure) else
    if src.amount < amount || !MayMove(src, authority, amount) then Err(TokenProgramFailure) else
    if from == to then Ok(t) else
    if dst.amount + amount > U64_MAX then Err(TokenProgramFailure) else
    Ok(t[from := Debit(src, authority, amount)][to := dst.(amount := dst.amount + amount)])
  }

  /** Token accounts keep their mint, owner and program, and none appears or vanishes. */
  ghost predicate SameAccounts(t: Tokens, t': Tokens)
  {
    && t.Keys == t'.Keys
    && forall a :: a in t ==>
         t'[a].mint == t[a].mint && t'[a].owner == t[a].owner && t'[a].program == t[a].program
  }

  lemma TransferEffect(t: Tokens, program: TokenProgram, from: Address, to: Address, mint: Option<Address>,
                       authority: Address, amount: U64)
    requires Transfer(t, program, from, to, mint, authority, amount).Ok?
    ensures from in t && to in t && t[from].mint == t[to].mint
    ensures var t' := Transfer(t, program, from, to, mint, authority, amount).value;
      && SameAccounts(t, t')
      && forall a :: a in t ==>
           t'[a].amount + (if a == from then amount else 0) == t[a].amount + (if a == to then amount else 0)
  {}

  /** When a transfer succeeds: two accounts of one mint under the program in use, the named mint if
      any, the balance, the authority's leave, and room at the destination. */
  lemma TransferSucceedsIff(t: Tokens, program: TokenProgram, from: Address, to: Address, mint: Option<Address>,
                            authority: Address, amount: U64)
    ensures Transfer(t, program, from, to, mint, authority, amount).Ok? <==>
      && from in t && to in t && t[from].program == program == t[to].program
      && t[from].mint == t[to].mint && mint in {None, Some(t[from].mint)}
      && amount <= t[from].amount
      && (t[from].delegate == Some(authority) ==> amount <= t[from].allowance)
      && (t[from].delegate != Some(authority) ==> t[from].owner == authority)
      && (from == to || t[to].amount + amount <= U64_MAX)
  {}

  /** A delegate spends its allowance, and loses its place once nothing is left; nobody else's
      delegation changes. */
  lemma TransferSpendsAllowance(t: Tokens, program: TokenProgram, from: Address, to: Address, mint: Option<Address>,
                                authority: Address, amount: U64)
    requires Transfer(t, program, from, to, mint, authority, amount).Ok? && from != to
    ensures var t' := Transfer(t, program, from, to, mint, authority, amount).value;
      && (t[from].delegate == Some(authority) ==>
            && t'[from].allowance + amount == t[from].allowance
            && t'[from].delegate == if t[from].allowance == amount then None else Some(authority))
      && (t[from].delegate != Some(authority) ==>
            t'[from].delegate == t[from].delegate && t'[from].allowance == t[from].allowance)
      && forall a :: a in t && a != from ==> t'[a].delegate == t[a].delegate && t'[a].allowance == t[a].allowance
  {}

  ghost function Balances(t: Tokens, mint: Address): (m: map<Address, nat>)
  {
    map a | a in t && t[a].mint == mint :: t[a].amount
  }

  lemma ShiftConserves(b: map<Address, nat>, from: Address, to: Address, amount: nat)
    requires from in b && to in b && from != to && amount <= b[from]
    ensures Total(b[from := b[from] - amount][to := b[to] + amount]) == Total(b)
  {
    TotalUpdate(b, from, b[from] - amount);
    TotalUpdate(b[from := b[from] - amount], to, b[to] + amount);
  }

  /** The balances after a move: unchanged, or shifted between two accounts of the mint. */
  lemma MovedBalances(t: Tokens, t': Tokens, from: Address, to: Address, amount: U64, mint: Address)
    requires from in t && to in t && t[from].mint == t[to].mint && SameAccounts(t, t')
    requires forall a :: a in t ==>
      t'[a].amount + (if a == from then amount else 0) == t[a].amount + (if a == to then amount else 0)
    ensures var b := Balances(t, mint);
      if from == to || t[from].mint != mint then Balances(t', mint) == b
      else from in b && to in b && amount <= b[from]
           && Balances(t', mint) == b[from := b[from] - amount][to := b[to] + amount]
  {}

  lemma TransferBalances(t: Tokens, t': Tokens, from: Address, to: Address, amount: U64, mint: Address)
    requires from in t && to in t && t[from].mint == t[to].mint && SameAccounts(t, t')
    requires forall a :: a in t ==>
      t'[a].amount + (if a == from then amount else 0) == t[a].amount + (if a == to then amount else 0)
    ensures Total(Balances(t', mint)) == Total(Balances(t, mint))
  {
    MovedBalances(t, t', from, to, amount, mint);
    if from != to && t[from].mint == mint {
      ShiftConserves(Balances(t, mint), from, to, amount);
    }
  }

  /** A transfer conserves the amount in circulation of every mint. */
  lemma TransferConserves(t: Tokens, program: TokenProgram, from: Address, to: Address, via: Option<Address>,
                          authority: Address, amount: U64, mint: Address)
    requires Transfer(t, program, from, to, via, authority, amount).Ok?
    ensures Total(Balances(Transfer(t, program, from, to, via, authority, amount).value, mint))
         == Total(Balances(t, mint))
  {
    var t' := Transfer(t, program, from, to, via, authority, amount).value;
    TransferEffect(t, program, from, to, via, authority, amount);
    TransferBalances(t, t', from, to, amount, mint);
  }

  /** A mint slot resolved: a real mint must exist under the token program in use. */
  function ReadMint(mints: map<Address, Mint>, program: TokenProgram, mint: Option<Address>): (r: Result<Option<Address>>)
    ensures r.Ok? ==> r.value == mint
  {
    if mint.Some? && (mint.value !in mints || mints[mint.value].program != program)
    then Err(InvalidMint) else Ok(mint)
  }

  // ---------------------------------------------------------------------------------------
  // Lamport moves
  // ---------------------------------------------------------------------------------------

  /** Checked in both directions; moving onto the same account is a no-op. */
  function MoveLamports(l: Lamports, from: Address, to: Address, amount: nat): (r: Result<Lamports>)
  {
    if from == to then Ok(l) else
    if Get(l, from) < amount then Err(ArithmeticOverflow) else
    if Get(l, to) + amount > U64_MAX then Err(ArithmeticOverflow) else
    Ok(l[from := Get(l, from) - amount][to := Get(l, to) + amount])
  }

  /** When a move succeeds: onto itself, or with the amount held and room for it. */
  lemma MoveSucceedsIff(l: Lamports, from: Address, to: Address, amount: nat)
    ensures MoveLamports(l, from, to, amount).Ok? <==>
      from == to || (amount <= Get(l, from) && Get(l, to) + amount <= U64_MAX)
  {}

  lemma MoveConserves(l: Lamports, from: Address, to: Address, amount: nat)
    requires MoveLamports(l, from, to, amount).Ok?
    ensures Total(MoveLamports(l, from, to, amount).value) == Total(l)
    ensures forall a :: Get(MoveLamports(l, from, to, amount).value, a) + (if a == from then amount else 0)
                     == Get(l, a) + (if a == to then amount else 0)
  {
    if from != to {
      var debited := l[from := Get(l, from) - amount];
      TotalUpdate(l, from, Get(l, from) - amount);
      TotalUpdate(debited, to, Get(l, to) + amount);
    }
  }

  // ---------------------------------------------------------------------------------------
  // Pulls: one order's sell-side transfers
  // ---------------------------------------------------------------------------------------

  /** Move each amount from the sell account to its destination, summing with overflow check. */
  function PullAll(t: Tokens, program: TokenProgram, from: Address, mint: Option<Address>, authority: Address,
                   destinations: seq<Meta>, amounts: seq<U64>, sum: U64): (r: Result<(Tokens, U64)>)
    decreases |amounts|
  {
    if destinations == [] || amounts == [] then Ok((t, sum)) else
    if sum + amounts[0] > U64_MAX then Err(PullAmountOverflow) else
    var t' :- Transfer(t, program, from, destinations[0].key, mint, authority, amounts[0]);
    PullAll(t', program, from, mint, authority, destinations[1..], amounts[1..], sum + amounts[0])
  }

  function PulledInto(destinations: seq<Meta>, amounts: seq<U64>, a: Address): (n: nat)
    requires |destinations| == |amounts|
  {
    if amounts == [] then 0
    else (if destinations[0].key == a then amounts[0] else 0) + PulledInto(destinations[1..], amounts[1..], a)
  }

  /** The pulls debit the sell account by exactly the reported total and credit exactly the
      listed destinations. */
  lemma {:induction false} PullEffect(t: Tokens, program: TokenProgram, from: Address, mint: Option<Address>,
                                      authority: Address, destinations: seq<Meta>, amounts: seq<U64>, sum: U64)
    requires |destinations| == |amounts|
    requires PullAll(t, program, from, mint, authority, destinations, amounts, sum).Ok?
    ensures var (t', total) := PullAll(t, program, from, mint, authority, destinations, amounts, sum).value;
      && total == sum + Sum(amounts)
      && SameAccounts(t, t')
      && forall a :: a in t ==>
           t'[a].amount + (if a == from then Sum(amounts) else 0) == t[a].amount + PulledInto(destinations, amounts, a)
    decreases |amounts|
  {
    if amounts != [] {
      TransferEffect(t, program, from, destinations[0].key, mint, authority, amounts[0]);
      var t1 := Transfer(t, program, from, destinations[0].key, mint, authority, amounts[0]).value;
      PullEffect(t1, program, from, mint, authority, destinations[1..], amounts[1..], sum + amounts[0]);
    }
  }

  // ---------------------------------------------------------------------------------------
  // Pushes: the payouts of one FinalizeSettle
  // ---------------------------------------------------------------------------------------

  datatype Funds = Funds(tokens: Tokens, lamports: Lamports)

  /** What stays fixed while pushes run. */
  datatype PayContext = PayContext(
    nativeBuffer: Address, statePda: Address, sysvar: Address, mints: map<Address, Mint>)

  predicate IsNative(ctx: PayContext, p: Push<Meta>) { p.source.key == ctx.nativeBuffer }

  function PayToken(ctx: PayContext, t: Tokens, p: Push<Meta>): (r: Result<Tokens>)
  {
    if p.destination.key !in t then Err(InvalidTokenProgram) else
    var program := t[p.destination.key].program;
    var mint :- ReadMint(ctx.mints, program, MaybeMint(ctx.sysvar, p.mint.key));
    Transfer(t, program, p.source.key, p.destination.key, mint, ctx.statePda, p.amount)
  }

  function PayNative(l: Lamports, p: Push<Meta>): (r: Result<Lamports>)
  {
    MoveLamports(l, p.source.key, p.destination.key, p.amount)
  }

  function TokenPass(ctx: PayContext, t: Tokens, pushes: seq<Push<Meta>>): (r: Result<Tokens>)
    decreases |pushes|
  {
    if pushes == [] then Ok(t) else
    var t' :- if IsNative(ctx, pushes[0]) then Ok(t) else PayToken(ctx, t, pushes[0]);
    TokenPass(ctx, t', pushes[1..])
  }

  function NativePass(ctx: PayContext, l: Lamports, pushes: seq<Push<Meta>>): (r: Result<Lamports>)
    decreases |pushes|
  {
    if pushes == [] then Ok(l) else
    var l' :- if IsNative(ctx, pushes[0]) then PayNative(l, pushes[0]) else Ok(l);
    NativePass(ctx, l', pushes[1..])
  }

  predicate AnyNative(ctx: PayContext, pushes: seq<Push<Meta>>)
  {
    exists k :: 0 <= k < |pushes| && IsNative(ctx, pushes[k])
  }

  /** The native buffer may not end up empty once it paid out. */
  function CheckNotEmptied(ctx: PayContext, f: Funds, pushes: seq<Push<Meta>>): (r: Result<Funds>)
  {
    if AnyNative(ctx, pushes) && Get(f.lamports, ctx.nativeBuffer) == 0
    then Err(NativeSolBufferEmptied) else Ok(f)
  }

  /** The payout as it runs: all token pushes, then all native ones, then the check. */
  function PushFunds(ctx: PayContext, f: Funds, pushes: seq<Push<Meta>>): (r: Result<Funds>)
  {
    var t :- TokenPass(ctx, f.tokens, pushes);
    var l :- NativePass(ctx, f.lamports, pushes);
    CheckNotEmptied(ctx, Funds(t, l), pushes)
  }

  /** The simple form: every push in its own turn. */
  function InOrder(ctx: PayContext, f: Funds, pushes: seq<Push<Meta>>): (r: Result<Funds>)
    decreases |pushes|
  {
    if pushes == [] then Ok(f) else
    var f' :- PayOne(ctx, f, pushes[0]);
    InOrder(ctx, f', pushes[1..])
  }

  function PayOne(ctx: PayContext, f: Funds, p: Push<Meta>): (r: Result<Funds>)
  {
    if IsNative(ctx, p) then
      var l :- PayNative(f.lamports, p); Ok(f.(lamports := l))
    else
      var t :- PayToken(ctx, f.tokens, p); Ok(f.(tokens := t))
  }

  lemma {:induction false} PassesSplitOrder(ctx: PayContext, f: Funds, pushes: seq<Push<Meta>>)
    ensures InOrder(ctx, f, pushes).Ok? <==>
      TokenPass(ctx, f.tokens, pushes).Ok? && NativePass(ctx, f.lamports, pushes).Ok?
    ensures InOrder(ctx, f, pushes).Ok? ==>
      InOrder(ctx, f, pushes).value
      == Funds(TokenPass(ctx, f.tokens, pushes).value, NativePass(ctx, f.lamports, pushes).value)
    decreases |pushes|
  {
    if pushes != [] && PayOne(ctx, f, pushes[0]).Ok? {
      PassesSplitOrder(ctx, PayOne(ctx, f, pushes[0]).value, pushes[1..]);
    }
  }

  /** The two-pass payout succeeds exactly when paying in order would and leaves the buffer
      funded, and then with the same balances. */
  lemma TwoPassIsInOrder(ctx: PayContext, f: Funds, pushes: seq<Push<Meta>>)
    ensures PushFunds(ctx, f, pushes).Ok? <==>
      var r := InOrder(ctx, f, pushes);
      r.Ok? && CheckNotEmptied(ctx, r.value, pushes).Ok?
    ensures PushFunds(ctx, f, pushes).Ok? ==> PushFunds(ctx, f, pushes) == InOrder(ctx, f, pushes)
  {
    PassesSplitOrder(ctx, f, pushes);
  }

  /** The amount pushes of one kind credit to, or debit from, an account. */
  function Credited(ctx: PayContext, pushes: seq<Push<Meta>>, native: bool, a: Address): (n: nat)
  {
    if pushes == [] then 0 else
      (if IsNative(ctx, pushes[0]) == native && pushes[0].destination.key == a then pushes[0].amount else 0)
      + Credited(ctx, pushes[1..], native, a)
  }

  function Debited(ctx: PayContext, pushes: seq<Push<Meta>>, native: bool, a: Address): (n: nat)
  {
    if pushes == [] then 0 else
      (if IsNative(ctx, pushes[0]) == native && pushes[0].source.key == a then pushes[0].amount else 0)
      + Debited(ctx, pushes[1..], native, a)
  }

  lemma PayTokenEffect(ctx: PayContext, t: Tokens, p: Push<Meta>)
    requires PayToken(ctx, t, p).Ok?
    ensures p.source.key in t && p.destination.key in t && t[p.source.key].mint == t[p.destination.key].mint
    ensures var t' := PayToken(ctx, t, p).value;
      && SameAccounts(t, t')
      && forall a :: a in t ==>
           t'[a].amount + (if a == p.source.key then p.amount else 0)
           == t[a].amount + (if a == p.destination.key then p.amount else 0)
  {
    TransferEffect(t, t[p.destination.key].program, p.source.key, p.destination.key,
                   MaybeMint(ctx.sysvar, p.mint.key), ctx.statePda, p.amount);
  }

  lemma {:induction false} TokenPassEffect(ctx: PayContext, t: Tokens, pushes: seq<Push<Meta>>)
    requires TokenPass(ctx, t, pushes).Ok?
    ensures var t' := TokenPass(ctx, t, pushes).value;
      && SameAccounts(t, t')
      && forall a :: a in t ==>
           t'[a].amount + Debited(ctx, pushes, false, a) == t[a].amount + Credited(ctx, pushes, false, a)
    decreases |pushes|
  {
    if pushes != [] {
      var p := pushes[0];
      if IsNative(ctx, p) {
        TokenPassEffect(ctx, t, pushes[1..]);
      } else {
        PayTokenEffect(ctx, t, p);
        TokenPassEffect(ctx, PayToken(ctx, t, p).value, pushes[1..]);
      }
    }
  }

  lemma {:induction false} NativePassEffect(ctx: PayContext, l: Lamports, pushes: seq<Push<Meta>>)
    requires NativePass(ctx, l, pushes).Ok?
    ensures var l' := NativePass(ctx, l, pushes).value;
      && Total(l') == Total(l)
      && forall a :: Get(l', a) + Debited(ctx, pushes, true, a) == Get(l, a) + Credited(ctx, pushes, true, a)
    decreases |pushes|
  {
    if pushes != [] {
      var p := pushes[0];
      if IsNative(ctx, p) {
        MoveConserves(l, p.source.key, p.destination.key, p.amount);
        NativePassEffect(ctx, PayNative(l, p).value, pushes[1..]);
      } else {
        NativePassEffect(ctx, l, pushes[1..]);
      }
    }
  }

  lemma {:induction false} TokenPassConserves(ctx: PayContext, t: Tokens, pushes: seq<Push<Meta>>, mint: Address)
    requires TokenPass(ctx, t, pushes).Ok?
    ensures Total(Balances(TokenPass(ctx, t, pushes).value, mint)) == Total(Balances(t, mint))
    decreases |pushes|
  {
    if pushes != [] {
      var p := pushes[0];
      if IsNative(ctx, p) {
        TokenPassConserves(ctx, t, pushes[1..], mint);
      } else {
        TransferConserves(t, t[p.destination.key].program, p.source.key, p.destination.key,
                          MaybeMint(ctx.sysvar, p.mint.key), ctx.statePda, p.amount, mint);
        TokenPassConserves(ctx, PayToken(ctx, t, p).value, pushes[1..], mint);
      }
    }
  }

  /** A completed payout moved each push's amount on its own ledger, from its source to its
      destination, conserved every mint and the lamports, and left a paying native buffer funded. */
  lemma PushFundsEffect(ctx: PayContext, f: Funds, pushes: seq<Push<Meta>>)
    requires PushFunds(ctx, f, pushes).Ok?
    ensures var f' := PushFunds(ctx, f, pushes).value;
      && SameAccounts(f.tokens, f'.tokens)
      && (forall a :: a in f.tokens ==>
           f'.tokens[a].amount + Debited(ctx, pushes, false, a)
           == f.tokens[a].amount + Credited(ctx, pushes, false, a))
      && (forall a :: Get(f'.lamports, a) + Debited(ctx, pushes, true, a)
                   == Get(f.lamports, a) + Credited(ctx, pushes, true, a))
      && (forall mint :: Total(Balances(f'.tokens, mint)) == Total(Balances(f.tokens, mint)))
      && Total(f'.lamports) == Total(f.lamports)
      && (AnyNative(ctx, pushes) ==> Get(f'.lamports, ctx.nativeBuffer) > 0)
  {
    TokenPassEffect(ctx, f.tokens, pushes);
    NativePassEffect(ctx, f.lamports, pushes);
    forall mint ensures Total(Balances(PushFunds(ctx, f, pushes).value.tokens, mint)) == Total(Balances(f.tokens, mint)) {
      TokenPassConserves(ctx, f.tokens, pushes, mint);
    }
  }
}
