/** The compile-time perfect hash over known mints, and the buffer check built on it. */
module KnownBuffers {
  import opened Basics

  datatype KnownBuffer = KnownBuffer(mint: Address, address: Address)

  /** 2 to the `SLOT_BITS`. */
  const SLOTS: nat := 512
  const TWO_64: nat := 0x1_0000_0000_0000_0000
  const TWO_55: nat := 0x80_0000_0000_0000
  const EMPTY: Byte := 255
  const ATTEMPTS: nat := 100_000

  /** Multiplicative hash of the mint's leading 8 bytes, keeping the top 9 bits of the
      wrapped 64-bit product. */
  function Slot(mint: Address, multiplier: U64): (s: nat)
    ensures s < SLOTS
  {
    var product := U64OfBytes(mint[..8]) * multiplier % TWO_64;
    product / TWO_55
  }

  /** A slot is the nine bits above the low 55 of the product, whatever wraps past 64. */
  lemma SlotIsTopBits(mint: Address, multiplier: U64) returns (wraps: nat, low: nat)
    ensures low < TWO_55 && Slot(mint, multiplier) < 512
    ensures U64OfBytes(mint[..8]) * multiplier == wraps * TWO_64 + Slot(mint, multiplier) * TWO_55 + low
  {
    var x: nat := U64OfBytes(mint[..8]) * multiplier;
    wraps, low := x / TWO_64, x % TWO_64 % TWO_55;
    assert x == x / TWO_64 * TWO_64 + x % TWO_64;
    assert x % TWO_64 == x % TWO_64 / TWO_55 * TWO_55 + low;
  }

  ghost predicate DistinctSlots(buffers: seq<KnownBuffer>, multiplier: U64)
  {
    forall i, j :: 0 <= i < j < |buffers| ==>
      Slot(buffers[i].mint, multiplier) != Slot(buffers[j].mint, multiplier)
  }

  /** The slot table after the first `n` buffers were written, later ones on top. */
  function SlotTable(buffers: seq<KnownBuffer>, multiplier: U64, n: nat): (table: seq<Byte>)
    requires n <= |buffers| < 255
    ensures |table| == SLOTS
  {
    if n == 0 then seq(SLOTS, _ => EMPTY)
    else SlotTable(buffers, multiplier, n - 1)[Slot(buffers[n - 1].mint, multiplier) := n - 1]
  }

  /** The hashed lookup. */
  function Lookup(buffers: seq<KnownBuffer>, multiplier: U64, mint: Address): (r: Option<KnownBuffer>)
    requires |buffers| < 255
  {
    var index := SlotTable(buffers, multiplier, |buffers|)[Slot(mint, multiplier)];
    if index < |buffers| && buffers[index].mint == mint then Some(buffers[index]) else None
  }

  /** The simple form: the first entry for `mint`. */
  function LinearLookup(buffers: seq<KnownBuffer>, mint: Address): (r: Option<KnownBuffer>)
    ensures r.None? <==> forall i :: 0 <= i < |buffers| ==> buffers[i].mint != mint
    ensures r.Some? ==> r.value in buffers && r.value.mint == mint
  {
    if buffers == [] then None
    else if buffers[0].mint == mint then Some(buffers[0])
    else LinearLookup(buffers[1..], mint)
  }

  /** Each written entry points at a buffer of that slot, and with distinct slots every buffer
      keeps its entry. */
  lemma {:induction false} TableEntries(buffers: seq<KnownBuffer>, multiplier: U64, n: nat)
    requires n <= |buffers| < 255
    ensures var t := SlotTable(buffers, multiplier, n);
      && (forall s :: 0 <= s < SLOTS && t[s] != EMPTY ==>
           t[s] < n && Slot(buffers[t[s]].mint, multiplier) == s)
      && (DistinctSlots(buffers, multiplier) ==>
           forall i :: 0 <= i < n ==> t[Slot(buffers[i].mint, multiplier)] == i)
  {
    if n > 0 {
      TableEntries(buffers, multiplier, n - 1);
    }
  }

  lemma {:induction false} LinearFinds(buffers: seq<KnownBuffer>, multiplier: U64, i: nat)
    requires i < |buffers| && DistinctSlots(buffers, multiplier)
    ensures LinearLookup(buffers, buffers[i].mint) == Some(buffers[i])
  {
    if i > 0 {
      assert Slot(buffers[0].mint, multiplier) != Slot(buffers[i].mint, multiplier);
      LinearFinds(buffers[1..], multiplier, i - 1);
    }
  }

  /** With an accepted multiplier the hashed lookup is the linear one. */
  lemma LookupRefinesLinear(buffers: seq<KnownBuffer>, multiplier: U64, mint: Address)
    requires |buffers| < 255 && DistinctSlots(buffers, multiplier)
    ensures Lookup(buffers, multiplier, mint) == LinearLookup(buffers, mint)
  {
    TableEntries(buffers, multiplier, |buffers|);
    if i :| 0 <= i < |buffers| && buffers[i].mint == mint {
      LinearFinds(buffers, multiplier, i);
    }
  }

  /** Distinct slots are also necessary: over distinct mints, a collision hides some entry. */
  lemma CollisionBreaksLookup(buffers: seq<KnownBuffer>, multiplier: U64)
    requires |buffers| < 255
    requires forall i, j :: 0 <= i < j < |buffers| ==> buffers[i].mint != buffers[j].mint
    ensures DistinctSlots(buffers, multiplier) <==>
      forall mint: Address :: Lookup(buffers, multiplier, mint) == LinearLookup(buffers, mint)
  {
    if DistinctSlots(buffers, multiplier) {
      forall mint: Address ensures Lookup(buffers, multiplier, mint) == LinearLookup(buffers, mint) {
        LookupRefinesLinear(buffers, multiplier, mint);
      }
    } else {
      var i, j :| 0 <= i < j < |buffers| &&
        Slot(buffers[i].mint, multiplier) == Slot(buffers[j].mint, multiplier);
      var t := SlotTable(buffers, multiplier, |buffers|)[Slot(buffers[i].mint, multiplier)];
      var hidden := if t == i then buffers[j].mint else buffers[i].mint;
      assert Lookup(buffers, multiplier, hidden).None?;
      assert LinearLookup(buffers, hidden).Some?;
    }
  }

  // ---------------------------------------------------------------------------------------
  // The loops that build the table at compile time
  // ---------------------------------------------------------------------------------------

  method HasDistinctSlots(buffers: seq<KnownBuffer>, multiplier: U64) returns (distinct: bool)
    ensures distinct <==> DistinctSlots(buffers, multiplier)
  {
    var taken := new bool[SLOTS](_ => false);
    var i := 0;
    while i < |buffers|
      invariant 0 <= i <= |buffers|
      invariant forall s :: 0 <= s < SLOTS ==>
        (taken[s] <==> exists k :: 0 <= k < i && Slot(buffers[k].mint, multiplier) == s)
      invariant forall a, b :: 0 <= a < b < i ==>
        Slot(buffers[a].mint, multiplier) != Slot(buffers[b].mint, multiplier)
    {
      var slot := Slot(buffers[i].mint, multiplier);
      if taken[slot] {
        return false;
      }
      taken[slot] := true;
      i := i + 1;
    }
    return true;
  }

  ghost predicate FirstAccepted(buffers: seq<KnownBuffer>, digest: nat -> U64, n: nat)
  {
    forall k: nat :: k < n ==> !DistinctSlots(buffers, digest(k))
  }

  /** The first of the digests accepted within the attempt bound; `None` is the compile-time
      panic. `digest(n)` stands for the first 8 bytes of SHA-256 of `n`. */
  method FindSlotMultiplier(buffers: seq<KnownBuffer>, digest: nat -> U64) returns (r: Option<U64>)
    ensures r.Some? ==> DistinctSlots(buffers, r.value)
    ensures r.Some? ==> exists n: nat :: n < ATTEMPTS && r.value == digest(n) && FirstAccepted(buffers, digest, n)
    ensures r.None? <==> forall n: nat :: n < ATTEMPTS ==> !DistinctSlots(buffers, digest(n))
  {
    var attempt: nat := 0;
    while attempt < ATTEMPTS
      invariant attempt <= ATTEMPTS
      invariant forall k: nat :: k < attempt ==> !DistinctSlots(buffers, digest(k))
    {
      var multiplier := digest(attempt);
      var distinct := HasDistinctSlots(buffers, multiplier);
      if distinct {
        return Some(multiplier);
      }
      attempt := attempt + 1;
    }
    return None;
  }

  method BuildSlotTable(buffers: seq<KnownBuffer>, multiplier: U64) returns (slots: array<Byte>)
    requires |buffers| < 255
    ensures fresh(slots) && slots[..] == SlotTable(buffers, multiplier, |buffers|)
  {
    slots := new Byte[SLOTS](_ => EMPTY);
    assert slots[..] == seq(SLOTS, _ => EMPTY);
    var i := 0;
    while i < |buffers|
      invariant 0 <= i <= |buffers|
      invariant fresh(slots) && slots.Length == SLOTS
      invariant slots[..] == SlotTable(buffers, multiplier, i)
    {
      slots[Slot(buffers[i].mint, multiplier)] := i;
      i := i + 1;
    }
  }

  // ---------------------------------------------------------------------------------------
  // The buffer check
  // ---------------------------------------------------------------------------------------

  /** What the deployed program pins: the known buffers, the multiplier that was found for them
      and the bump-taking derivation of any other mint's buffer. */
  datatype BufferIndex = BufferIndex(
    known: seq<KnownBuffer>,
    multiplier: U64,
    derive: (Address, Byte) -> Option<Address>)
  {
    ghost predicate Sound()
    {
      |known| < 255 && DistinctSlots(known, multiplier)
    }
  }

  function ValidateBuffer(index: BufferIndex, buffer: Address, mint: Address, bump: Byte): (r: Result<()>)
    requires |index.known| < 255
  {
    var ok := match Lookup(index.known, index.multiplier, mint)
      case Some(entry) => buffer == entry.address
      case None => index.derive(mint, bump) == Some(buffer);
    if ok then Ok(()) else Err(PushSourceNotBuffer)
  }

  /** The addresses accepted for a mint, without the hash: the pinned one for a known mint,
      whatever the bump, and the derived one otherwise. */
  ghost predicate IsBufferOf(index: BufferIndex, buffer: Address, mint: Address, bump: Byte)
  {
    if exists i :: 0 <= i < |index.known| && index.known[i].mint == mint
    then exists i :: 0 <= i < |index.known| && index.known[i] == KnownBuffer(mint, buffer)
    else index.derive(mint, bump) == Some(buffer)
  }

  lemma ValidateBufferExact(index: BufferIndex, buffer: Address, mint: Address, bump: Byte)
    requires index.Sound()
    ensures ValidateBuffer(index, buffer, mint, bump).Ok? <==> IsBufferOf(index, buffer, mint, bump)
  {
    LookupRefinesLinear(index.known, index.multiplier, mint);
    if i :| 0 <= i < |index.known| && index.known[i].mint == mint {
      LinearFinds(index.known, index.multiplier, i);
      forall j | 0 <= j < |index.known| && index.known[j].mint == mint ensures index.known[j] == index.known[i] {
        LinearFinds(index.known, index.multiplier, j);
      }
    }
  }
}
