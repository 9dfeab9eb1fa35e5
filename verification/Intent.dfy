/** Order intents and their canonical 213-byte encoding. */
module Intent {
  import opened Basics

  /** The mint slot value that names native SOL: the system program's address, all zeros. */
  const NATIVE_MARKER: Address :=
    [0, 0, 0, 0, 0, 0, 0, 0, 0, 0, 0, 0, 0, 0, 0, 0, 0, 0, 0, 0, 0, 0, 0, 0, 0, 0, 0, 0, 0, 0, 0, 0]

  const INTENT_SIZE: nat := 213

  type Amount = n: U64 | 0 < n witness 1

  datatype OrderKind = Sell | Buy

  datatype Flags = Flags(kind: OrderKind, partiallyFillable: bool)

  datatype TokenAsset = TokenAsset(mint: Address, account: Address)

  datatype Asset = Native(account: Address) | Token(token: TokenAsset)

  datatype OrderIntent = OrderIntent(
    owner: Address,
    sell: TokenAsset,
    buy: Asset,
    sellAmount: Amount,
    buyAmount: Amount,
    validTo: U32,
    flags: Flags,
    appData: Address)

  // ---------------------------------------------------------------------------------------
  // Flags: bit 1 is the kind, bit 2 is partial fill, every other bit is reserved
  // ---------------------------------------------------------------------------------------

  function Bit(b: Byte, weight: nat): (r: nat)
    requires weight > 0
    ensures r <= 1
  {
    (b / weight) % 2
  }

  function EncodeFlags(flags: Flags): (b: Byte)
  {
    (if flags.kind.Buy? then 2 else 0) + (if flags.partiallyFillable then 4 else 0)
  }

  function DecodeFlags(b: Byte): (r: Result<Flags>)
  {
    if b != 2 * Bit(b, 2) + 4 * Bit(b, 4) then Err(InvalidInstructionData)
    else Ok(Flags(if Bit(b, 2) == 0 then Sell else Buy, Bit(b, 4) != 0))
  }

  lemma FlagsRoundTrip(flags: Flags)
    ensures DecodeFlags(EncodeFlags(flags)) == Ok(flags)
  {}

  /** Which bytes are flags, and what each of their two bits says. */
  lemma FlagBits(b: Byte)
    ensures DecodeFlags(b).Ok? <==> b in {0, 2, 4, 6}
    ensures DecodeFlags(b).Ok? ==>
      && (DecodeFlags(b).value.kind.Buy? <==> b == 2 || b == 6)
      && (DecodeFlags(b).value.partiallyFillable <==> b == 4 || b == 6)
  {}

  lemma FlagsCanonical(b: Byte)
    requires DecodeFlags(b).Ok?
    ensures EncodeFlags(DecodeFlags(b).value) == b
  {}

  // ---------------------------------------------------------------------------------------
  // Assets
  // ---------------------------------------------------------------------------------------

  /** The `(mint, account)` pair carried on the wire. */
  function EncodeAsset(asset: Asset): (pair: (Address, Address))
  {
    match asset
    case Native(account) => (NATIVE_MARKER, account)
    case Token(token) => (token.mint, token.account)
  }

  function DecodeAsset(mint: Address, account: Address): (asset: Asset)
    ensures Denotable(asset)
    ensures EncodeAsset(asset) == (mint, account)
  {
    if mint == NATIVE_MARKER then Native(account) else Token(TokenAsset(mint, account))
  }

  /** The checked conversion of a token side: native SOL has no mint. */
  function AssetFromToken(token: TokenAsset): (r: Result<Asset>)
    ensures r.Ok? ==> r.value == Token(token)
  {
    if token.mint == NATIVE_MARKER then Err(NativeSolHasNoMint) else Ok(Token(token))
  }

  /** A token side that the checked conversion yields: it never names native SOL. */
  predicate Denotable(asset: Asset)
  {
    asset.Token? ==> AssetFromToken(asset.token).Ok?
  }

  /** The conversion refuses exactly the tokens that would come back from the wire as native SOL. */
  lemma ConvertibleIffSurvives(token: TokenAsset)
    ensures var (mint, account) := EncodeAsset(Token(token));
      AssetFromToken(token).Ok? <==> DecodeAsset(mint, account) == Token(token)
  {}

  /** The buy side's account and mint as the accessors read them. */
  function BuyAccount(intent: OrderIntent): (a: Address) { EncodeAsset(intent.buy).1 }

  function BuyMint(intent: OrderIntent): (m: Address) { EncodeAsset(intent.buy).0 }

  // ---------------------------------------------------------------------------------------
  // The 213-byte encoding
  // ---------------------------------------------------------------------------------------

  function EncodeIntent(i: OrderIntent): (bytes: seq<Byte>)
    ensures |bytes| == INTENT_SIZE
  {
    var (buyMint, buyAccount) := EncodeAsset(i.buy);
    i.owner + i.sell.account + i.sell.mint + buyAccount + buyMint
    + U64ToBytes(i.sellAmount) + U64ToBytes(i.buyAmount) + LeBytes(i.validTo, 4)
    + [EncodeFlags(i.flags)] + i.appData
  }

  function DecodeIntent(bytes: seq<Byte>): (r: Result<OrderIntent>)
    requires |bytes| == INTENT_SIZE
    ensures r.Ok? ==> Denotable(r.value.buy)
  {
    var sellAmount := U64OfBytes(bytes[160..168]);
    var buyAmount := U64OfBytes(bytes[168..176]);
    if sellAmount == 0 then Err(ZeroOrderAmount) else
    if buyAmount == 0 then Err(ZeroOrderAmount) else
    var flags :- DecodeFlags(bytes[180]);
    Ok(OrderIntent(
      bytes[0..32],
      TokenAsset(bytes[64..96], bytes[32..64]),
      DecodeAsset(bytes[128..160], bytes[96..128]),
      sellAmount,
      buyAmount,
      DecodeValidTo(bytes[176..180]),
      flags,
      bytes[181..213]))
  }

  function DecodeValidTo(bytes: seq<Byte>): (t: U32)
    requires |bytes| == 4
  {
    LeValueBound(bytes);
    WordSizes();
    LeValue(bytes)
  }

  /** The validation the program runs on raw intent bytes before reading fields in place. */
  function CheckBytes(bytes: seq<Byte>): (r: Result<()>)
    requires |bytes| == INTENT_SIZE
  {
    var _ :- DecodeFlags(bytes[180]);
    if U64OfBytes(bytes[160..168]) == 0 || U64OfBytes(bytes[168..176]) == 0
    then Err(ZeroOrderAmount) else Ok(())
  }

  /** The in-place check and the full decoder accept exactly the same bytes. */
  lemma CheckAgreesWithDecode(bytes: seq<Byte>)
    requires |bytes| == INTENT_SIZE
    ensures CheckBytes(bytes).Ok? <==> DecodeIntent(bytes).Ok?
  {}

  /** Which byte strings are intents, and where each field of one is read. */
  lemma DecodedSlots(bytes: seq<Byte>)
    requires |bytes| == INTENT_SIZE
    ensures DecodeIntent(bytes).Ok? <==>
      bytes[180] in {0, 2, 4, 6} && U64OfBytes(bytes[160..168]) > 0 && U64OfBytes(bytes[168..176]) > 0
    ensures DecodeIntent(bytes).Ok? ==>
      var i := DecodeIntent(bytes).value;
      && i.owner == bytes[0..32] && i.sell.account == bytes[32..64] && i.sell.mint == bytes[64..96]
      && BuyAccount(i) == bytes[96..128] && BuyMint(i) == bytes[128..160]
      && i.sellAmount == U64OfBytes(bytes[160..168]) && i.buyAmount == U64OfBytes(bytes[168..176])
      && i.validTo == (bytes[176] as int) + 0x100 * (bytes[177] as int) + 0x1_0000 * (bytes[178] as int)
                      + 0x100_0000 * (bytes[179] as int)
      && (i.flags.kind.Buy? <==> bytes[180] in {2, 6}) && (i.flags.partiallyFillable <==> bytes[180] in {4, 6})
      && i.appData == bytes[181..213]
  {
    FlagBits(bytes[180]);
    var t := bytes[176..180];
    LeStep(t, 0);
    LeStep(t, 1);
    LeStep(t, 2);
    LeStep(t, 3);
    assert t[4..] == [];
  }

  lemma EncodedSlots(i: OrderIntent)
    ensures var bytes := EncodeIntent(i);
      && bytes[0..32] == i.owner
      && bytes[32..64] == i.sell.account
      && bytes[64..96] == i.sell.mint
      && bytes[96..128] == BuyAccount(i)
      && bytes[128..160] == BuyMint(i)
      && bytes[160..168] == U64ToBytes(i.sellAmount)
      && bytes[168..176] == U64ToBytes(i.buyAmount)
      && bytes[176..180] == LeBytes(i.validTo, 4)
      && bytes[180] == EncodeFlags(i.flags)
      && bytes[181..213] == i.appData
  {}

  /** Decoding undoes encoding exactly on the intents whose buy side is denotable. */
  lemma IntentRoundTrip(i: OrderIntent)
    ensures DecodeIntent(EncodeIntent(i)).Ok?
    ensures DecodeIntent(EncodeIntent(i)) == Ok(i) <==> Denotable(i.buy)
  {
    EncodedSlots(i);
    U64RoundTrip(i.sellAmount);
    U64RoundTrip(i.buyAmount);
    WordSizes();
    LeRoundTrip(i.validTo, 4);
    FlagsRoundTrip(i.flags);
  }

  /** Encoding undoes decoding on every accepted byte string: an intent has one spelling. */
  lemma IntentCanonical(bytes: seq<Byte>)
    requires |bytes| == INTENT_SIZE
    requires DecodeIntent(bytes).Ok?
    ensures EncodeIntent(DecodeIntent(bytes).value) == bytes
  {
    var i := DecodeIntent(bytes).value;
    U64Canonical(bytes[160..168]);
    U64Canonical(bytes[168..176]);
    LeCanonical(bytes[176..180]);
    FlagsCanonical(bytes[180]);
    EncodedSlots(i);
    Reassemble(EncodeIntent(i), bytes);
  }

  lemma Reassemble(x: seq<Byte>, y: seq<Byte>)
    requires |x| == |y| == INTENT_SIZE
    requires x[0..32] == y[0..32] && x[32..64] == y[32..64] && x[64..96] == y[64..96]
    requires x[96..128] == y[96..128] && x[128..160] == y[128..160] && x[160..168] == y[160..168]
    requires x[168..176] == y[168..176] && x[176..180] == y[176..180] && x[180] == y[180]
    requires x[181..213] == y[181..213]
    ensures x == y
  {
    assert x == x[0..32] + x[32..64] + x[64..96] + x[96..128] + x[128..160]
              + x[160..168] + x[168..176] + x[176..180] + [x[180]] + x[181..213];
    assert y == y[0..32] + y[32..64] + y[64..96] + y[96..128] + y[128..160]
              + y[160..168] + y[168..176] + y[176..180] + [y[180]] + y[181..213];
  }

  /** No two byte strings decode to the same intent. */
  lemma DecodeInjective(x: seq<Byte>, y: seq<Byte>)
    requires |x| == |y| == INTENT_SIZE
    requires DecodeIntent(x).Ok? && DecodeIntent(x) == DecodeIntent(y)
    ensures x == y
  {
    IntentCanonical(x);
    IntentCanonical(y);
  }

  /** No two denotable intents share an encoding, so the encoding is a sound order identity. */
  lemma EncodeInjective(i: OrderIntent, j: OrderIntent)
    requires Denotable(i.buy) && Denotable(j.buy)
    requires EncodeIntent(i) == EncodeIntent(j)
    ensures i == j
  {
    IntentRoundTrip(i);
    IntentRoundTrip(j);
  }

  // ---------------------------------------------------------------------------------------
  // The encoder as it runs: slot by slot into a zeroed array
  // ---------------------------------------------------------------------------------------

  method FlagsByte(flags: Flags) returns (b: Byte)
    ensures b == EncodeFlags(flags)
    ensures DecodeFlags(b) == Ok(flags)
  {
    b := 0;
    if flags.kind == Buy {
      b := b + 2;
    }
    if flags.partiallyFillable {
      b := b + 4;
    }
    FlagsRoundTrip(flags);
  }

  method WriteIntent(i: OrderIntent) returns (out: array<Byte>)
    ensures fresh(out) && out[..] == EncodeIntent(i)
  {
    out := new Byte[INTENT_SIZE](_ => 0);
    var (buyMint, buyAccount) := EncodeAsset(i.buy);
    var flags := FlagsByte(i.flags);
    WriteSlot(out, 0, i.owner);
    ghost var done := i.owner;
    assert out[..32] == done;
    WriteSlot(out, 32, i.sell.account);
    done := done + i.sell.account;
    assert out[..64] == done;
    WriteSlot(out, 64, i.sell.mint);
    done := done + i.sell.mint;
    assert out[..96] == done;
    WriteSlot(out, 96, buyAccount);
    done := done + buyAccount;
    assert out[..128] == done;
    WriteSlot(out, 128, buyMint);
    done := done + buyMint;
    assert out[..160] == done;
    WriteSlot(out, 160, U64ToBytes(i.sellAmount));
    done := done + U64ToBytes(i.sellAmount);
    assert out[..168] == done;
    WriteSlot(out, 168, U64ToBytes(i.buyAmount));
    done := done + U64ToBytes(i.buyAmount);
    assert out[..176] == done;
    WriteSlot(out, 176, LeBytes(i.validTo, 4));
    done := done + LeBytes(i.validTo, 4);
    assert out[..180] == done;
    WriteSlot(out, 180, [flags]);
    done := done + [flags];
    assert out[..181] == done;
    WriteSlot(out, 181, i.appData);
    assert out[..] == done + i.appData;
  }
}
