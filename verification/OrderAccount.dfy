/** The order account: its 264-byte layout and the accessor that updates it in place. */
module OrderAccounts {
  import opened Basics
  import opened Intent

  const ORDER_SIZE: nat := 264
  const ORDER_DISCRIMINATOR: Byte := 128

  /** The value an order account encodes. `withdrawn` and `received` are cumulative. */
  datatype OrderBody = OrderBody(
    bump: Byte,
    cancelled: bool,
    withdrawn: U64,
    received: U64,
    createdBy: Address,
    intent: OrderIntent)

  function CancelledByte(cancelled: bool): (b: Byte) { if cancelled then 1 else 0 }

  function EncodeMarks(b: OrderBody): (bytes: seq<Byte>)
  {
    [ORDER_DISCRIMINATOR, b.bump, CancelledByte(b.cancelled)]
  }

  function EncodeAmounts(b: OrderBody): (bytes: seq<Byte>)
    ensures |bytes| == 16
  {
    U64ToBytes(b.withdrawn) + U64ToBytes(b.received)
  }

  function EncodeRest(b: OrderBody): (bytes: seq<Byte>)
    ensures |bytes| == ORDER_SIZE - 19
  {
    b.createdBy + EncodeIntent(b.intent)
  }

  function EncodeOrder(b: OrderBody): (bytes: seq<Byte>)
    ensures |bytes| == ORDER_SIZE
  {
    EncodeMarks(b) + EncodeAmounts(b) + EncodeRest(b)
  }

  /** The length and discriminator checks of `attach`. */
  predicate Attachable(bytes: seq<Byte>)
  {
    |bytes| == ORDER_SIZE && bytes[0] == ORDER_DISCRIMINATOR
  }

  function DecodeOrder(bytes: seq<Byte>): (r: Result<OrderBody>)
    ensures r.Ok? ==> Attachable(bytes) && Denotable(r.value.intent.buy)
  {
    if !Attachable(bytes) || bytes[2] > 1 then Err(InvalidAccountData) else
    match DecodeIntent(bytes[51..264])
    case Err(_) => Err(InvalidAccountData)
    case Ok(intent) =>
      Ok(OrderBody(bytes[1], bytes[2] == 1, U64OfBytes(bytes[3..11]), U64OfBytes(bytes[11..19]),
                   bytes[19..51], intent))
  }

  lemma OrderParts(b: OrderBody)
    ensures var bytes := EncodeOrder(b);
      bytes[..3] == EncodeMarks(b) && bytes[3..19] == EncodeAmounts(b) && bytes[19..] == EncodeRest(b)
  {}

  lemma OrderSlots(b: OrderBody)
    ensures var bytes := EncodeOrder(b);
      && bytes[0] == ORDER_DISCRIMINATOR && bytes[1] == b.bump
      && bytes[2] == CancelledByte(b.cancelled)
      && bytes[3..11] == U64ToBytes(b.withdrawn) && bytes[11..19] == U64ToBytes(b.received)
      && bytes[19..51] == b.createdBy && bytes[51..264] == EncodeIntent(b.intent)
  {
    var bytes := EncodeOrder(b);
    OrderParts(b);
    assert bytes[3..11] == bytes[3..19][..8] && bytes[11..19] == bytes[3..19][8..];
    assert bytes[19..51] == bytes[19..][..32] && bytes[51..264] == bytes[19..][32..];
  }

  /** Decoding undoes encoding exactly on bodies whose intent is denotable. */
  lemma OrderRoundTrip(b: OrderBody)
    ensures DecodeOrder(EncodeOrder(b)).Ok?
    ensures DecodeOrder(EncodeOrder(b)) == Ok(b) <==> Denotable(b.intent.buy)
  {
    OrderSlots(b);
    U64RoundTrip(b.withdrawn);
    U64RoundTrip(b.received);
    IntentRoundTrip(b.intent);
  }

  lemma CanonicalAmounts(bytes: seq<Byte>)
    requires DecodeOrder(bytes).Ok?
    ensures EncodeAmounts(DecodeOrder(bytes).value) == bytes[3..19]
  {
    U64Canonical(bytes[3..11]);
    U64Canonical(bytes[11..19]);
    assert bytes[3..19] == bytes[3..11] + bytes[11..19];
  }

  lemma CanonicalRest(bytes: seq<Byte>)
    requires DecodeOrder(bytes).Ok?
    ensures EncodeRest(DecodeOrder(bytes).value) == bytes[19..]
  {
    IntentCanonical(bytes[51..264]);
    assert bytes[19..] == bytes[19..51] + bytes[51..264];
  }

  /** Encoding undoes decoding on every account the program can read. */
  lemma OrderCanonical(bytes: seq<Byte>)
    requires DecodeOrder(bytes).Ok?
    ensures EncodeOrder(DecodeOrder(bytes).value) == bytes
  {
    var b := DecodeOrder(bytes).value;
    CanonicalAmounts(bytes);
    CanonicalRest(bytes);
    assert bytes[..3] == EncodeMarks(b);
    assert bytes == bytes[..3] + bytes[3..19] + bytes[19..];
  }

  /** Splicing new fill amounts into the bytes is the same as re-encoding the whole body. */
  lemma SpliceAmounts(bytes: seq<Byte>, withdrawn: U64, received: U64)
    requires DecodeOrder(bytes).Ok?
    ensures bytes[..3] + U64ToBytes(withdrawn) + U64ToBytes(received) + bytes[19..]
         == EncodeOrder(DecodeOrder(bytes).value.(withdrawn := withdrawn, received := received))
  {
    var b := DecodeOrder(bytes).value;
    var b' := b.(withdrawn := withdrawn, received := received);
    CanonicalRest(bytes);
    assert bytes[..3] == EncodeMarks(b') && bytes[19..] == EncodeRest(b');
    assert bytes[..3] + U64ToBytes(withdrawn) + U64ToBytes(received) == bytes[..3] + EncodeAmounts(b');
  }

  /** Splicing the cancelled flag is the same as re-encoding the whole body. */
  lemma SpliceCancelled(bytes: seq<Byte>)
    requires DecodeOrder(bytes).Ok?
    ensures bytes[..2] + [1] + bytes[3..]
         == EncodeOrder(DecodeOrder(bytes).value.(cancelled := true))
  {
    var b := DecodeOrder(bytes).value;
    var b' := b.(cancelled := true);
    CanonicalAmounts(bytes);
    CanonicalRest(bytes);
    assert bytes[3..19] == EncodeAmounts(b') && bytes[19..] == EncodeRest(b');
    assert bytes[..2] + [1] == EncodeMarks(b');
    assert bytes[3..] == bytes[3..19] + bytes[19..];
  }

  // ---------------------------------------------------------------------------------------
  // Stored accounts
  // ---------------------------------------------------------------------------------------

  /** Every stored account reads as the order the book has for it. */
  ghost predicate Stored(accounts: map<Address, seq<Byte>>, book: map<Address, OrderBody>)
  {
    && accounts.Keys == book.Keys
    && forall a :: a in book ==> DecodeOrder(accounts[a]) == Ok(book[a])
  }

  lemma StoredOrder(accounts: map<Address, seq<Byte>>, book: map<Address, OrderBody>, a: Address,
                    bytes: seq<Byte>, b: OrderBody)
    requires Stored(accounts, book) && DecodeOrder(bytes) == Ok(b)
    ensures Stored(accounts[a := bytes], book[a := b])
  {}

  lemma ClosedOrder(accounts: map<Address, seq<Byte>>, book: map<Address, OrderBody>, a: Address)
    requires Stored(accounts, book)
    ensures Stored(accounts - {a}, book - {a})
  {}

  /** Write the body slot by slot. */
  method WriteOrder(bytes: array<Byte>, b: OrderBody)
    requires bytes.Length == ORDER_SIZE
    modifies bytes
    ensures bytes[..] == EncodeOrder(b)
  {
    bytes[0], bytes[1], bytes[2] := ORDER_DISCRIMINATOR, b.bump, CancelledByte(b.cancelled);
    ghost var done := EncodeMarks(b);
    assert bytes[..3] == done;
    WriteSlot(bytes, 3, U64ToBytes(b.withdrawn));
    done := done + U64ToBytes(b.withdrawn);
    assert bytes[..11] == done;
    WriteSlot(bytes, 11, U64ToBytes(b.received));
    done := done + U64ToBytes(b.received);
    assert bytes[..19] == done == EncodeMarks(b) + EncodeAmounts(b);
    WriteSlot(bytes, 19, b.createdBy);
    done := done + b.createdBy;
    assert bytes[..51] == done;
    WriteSlot(bytes, 51, EncodeIntent(b.intent));
    assert bytes[..] == done + EncodeIntent(b.intent);
  }

  /** The zero-copy accessor: reads and in-place writes over one account's bytes. */
  class OrderAccount {
    const data: array<Byte>

    ghost predicate Valid()
      reads this, data
    {
      Attachable(data[..])
    }

    constructor Over(bytes: array<Byte>)
      ensures data == bytes
    {
      data := bytes;
    }

    /** Wrap a buffer that already holds an order: exact length, right discriminator. */
    static method Attach(bytes: array<Byte>) returns (r: Result<OrderAccount>)
      ensures r.Ok? <==> Attachable(bytes[..])
      ensures r.Ok? ==> fresh(r.value) && r.value.data == bytes && r.value.Valid()
      ensures r.Err? ==> r.error == InvalidAccountData
    {
      if bytes.Length != ORDER_SIZE || bytes[0] != ORDER_DISCRIMINATOR {
        return Err(InvalidAccountData);
      }
      var account := new OrderAccount.Over(bytes);
      return Ok(account);
    }

    /** Stamp a full body into a buffer, which must be exactly one order long. */
    static method Initialize(bytes: array<Byte>, bump: Byte, cancelled: bool, withdrawn: U64, received: U64,
                             createdBy: Address, intent: OrderIntent) returns (r: Result<OrderAccount>)
      modifies bytes
      ensures r.Ok? <==> bytes.Length == ORDER_SIZE
      ensures r.Ok? ==> fresh(r.value) && r.value.data == bytes && r.value.Valid()
      ensures r.Ok? ==> bytes[..] == EncodeOrder(OrderBody(bump, cancelled, withdrawn, received, createdBy, intent))
      ensures r.Err? ==> r.error == AccountDataTooSmall && bytes[..] == old(bytes[..])
    {
      if bytes.Length != ORDER_SIZE {
        return Err(AccountDataTooSmall);
      }
      WriteOrder(bytes, OrderBody(bump, cancelled, withdrawn, received, createdBy, intent));
      var account := new OrderAccount.Over(bytes);
      return Ok(account);
    }

    /** The account holds the encoding of `b`. */
    ghost predicate Holds(b: OrderBody)
      reads this, data
    {
      Valid() && DecodeOrder(data[..]) == Ok(b)
    }

    function Bump(): (bump: Byte)
      requires Valid()
      reads this, data
      ensures forall b :: Holds(b) ==> bump == b.bump
    {
      data[1]
    }

    function Cancelled(): (r: Result<bool>)
      requires Valid()
      reads this, data
      ensures forall b :: Holds(b) ==> r == Ok(b.cancelled)
      ensures r.Err? <==> data[2] > 1
    {
      if data[2] == 0 then Ok(false) else if data[2] == 1 then Ok(true) else Err(InvalidAccountData)
    }

    function FilledAmounts(): (totals: (U64, U64))
      requires Valid()
      reads this, data
      ensures forall b :: Holds(b) ==> totals == (b.withdrawn, b.received)
    {
      assert data[3..11] == data[..][3..11] && data[11..19] == data[..][11..19];
      (U64OfBytes(data[3..11]), U64OfBytes(data[11..19]))
    }

    function CreatedBy(): (creator: Address)
      requires Valid()
      reads this, data
      ensures forall b :: Holds(b) ==> creator == b.createdBy
    {
      assert data[19..51] == data[..][19..51];
      data[19..51]
    }

    /** Check the stored intent's bytes in place, then read it. */
    function ReadIntent(): (r: Result<OrderIntent>)
      requires Valid()
      reads this, data
      ensures forall b :: Holds(b) ==> r == Ok(b.intent)
    {
      var bytes := data[51..264];
      assert bytes == data[..][51..264];
      CheckAgreesWithDecode(bytes);
      if CheckBytes(bytes).Err? then Err(InvalidAccountData) else DecodeIntent(bytes)
    }

    /** Overwrite the two cumulative amounts, and nothing else. */
    method SetAmounts(withdrawn: U64, received: U64)
      requires Valid()
      modifies data
      ensures Valid()
      ensures data[..] == old(data[..3]) + U64ToBytes(withdrawn) + U64ToBytes(received) + old(data[19..])
      ensures old(DecodeOrder(data[..])).Ok? ==>
        data[..] == EncodeOrder(old(DecodeOrder(data[..])).value.(withdrawn := withdrawn, received := received))
      ensures forall b :: old(Holds(b)) ==> Holds(b.(withdrawn := withdrawn, received := received))
    {
      ghost var before := data[..];
      WriteSlot(data, 3, U64ToBytes(withdrawn));
      WriteSlot(data, 11, U64ToBytes(received));
      assert data[..] == before[..3] + U64ToBytes(withdrawn) + U64ToBytes(received) + before[19..];
      if DecodeOrder(before).Ok? {
        SpliceAmounts(before, withdrawn, received);
        OrderRoundTrip(DecodeOrder(before).value.(withdrawn := withdrawn, received := received));
      }
    }

    /** Mark the order cancelled; writing it twice changes nothing. */
    method SetCancelled()
      requires Valid()
      modifies data
      ensures Valid()
      ensures data[..] == old(data[..2]) + [1] + old(data[3..])
      ensures old(DecodeOrder(data[..])).Ok? ==>
        data[..] == EncodeOrder(old(DecodeOrder(data[..])).value.(cancelled := true))
      ensures forall b :: old(Holds(b)) ==> Holds(b.(cancelled := true))
    {
      ghost var before := data[..];
      data[2] := 1;
      assert data[..] == before[..2] + [1] + before[3..];
      if DecodeOrder(before).Ok? {
        SpliceCancelled(before);
        OrderRoundTrip(DecodeOrder(before).value.(cancelled := true));
      }
    }
  }
}
