/** The off-chain builders of the two settle instructions, and their round trips through the
    on-chain parsers. */
module SettleBuild {
  import opened Basics
  import opened Sorting
  import opened SettleWire

  /** The addresses every settle instruction names. The sysvar doubles as mint placeholder. */
  datatype Ids = Ids(sysvar: Address, splToken: Address, token2022: Address)

  datatype Pull = Pull(destination: Address, amount: U64)

  function ReadOnly(key: Address): (m: Meta) { Meta(key, false) }

  /** One slot per token program; an unused one repeats the sysvar. */
  function TokenProgramMetas(ids: Ids, only: Option<TokenProgram>): (metas: seq<Meta>)
    ensures |metas| == 2
  {
    [ReadOnly(if only == None || only == Some(SplToken) then ids.splToken else ids.sysvar),
     ReadOnly(if only == None || only == Some(Token2022) then ids.token2022 else ids.sysvar)]
  }

  function MintSlot(ids: Ids, mint: Option<Address>): (slot: Address)
    ensures MaybeMint(ids.sysvar, slot) == mint <==> mint != Some(ids.sysvar)
  {
    if mint.Some? then mint.value else ids.sysvar
  }

  // ---------------------------------------------------------------------------------------
  // BeginSettle
  // ---------------------------------------------------------------------------------------

  datatype BeginBuilder = BeginBuilder(
    statePda: Address,
    solver: Address,
    finalizeIx: nat,
    auctionId: int,
    only: Option<TokenProgram>,
    orderPdas: seq<Address>,
    sellAccounts: seq<Address>,
    sellMints: seq<Option<Address>>,
    pulls: seq<seq<Pull>>)
  {
    /** The lists are parallel and the integers fit their wire types. */
    predicate Parallel()
    {
      && |orderPdas| == |sellAccounts| == |sellMints| == |pulls|
      && finalizeIx < 0x1_0000
      && -0x8000_0000_0000_0000 <= auctionId < 0x8000_0000_0000_0000
    }
  }

  /** One order's entry across the parallel lists. */
  datatype OrderEntry = OrderEntry(pda: Address, sellAccount: Address, sellMint: Option<Address>, pulls: seq<Pull>)

  function Entries(b: BeginBuilder): (entries: seq<OrderEntry>)
    requires b.Parallel()
    ensures |entries| == |b.orderPdas|
  {
    seq(|b.orderPdas|, i requires 0 <= i < |b.orderPdas| =>
      OrderEntry(b.orderPdas[i], b.sellAccounts[i], b.sellMints[i], b.pulls[i]))
  }

  function SortedEntries(b: BeginBuilder): (entries: seq<OrderEntry>)
    requires b.Parallel()
    ensures |entries| == |b.orderPdas|
  {
    Gather(Entries(b), SortIndices(b.orderPdas, |b.orderPdas|))
  }

  function PullAmounts(pulls: seq<Pull>): (s: seq<U64>)
    ensures |s| == |pulls|
  {
    seq(|pulls|, i requires 0 <= i < |pulls| => pulls[i].amount)
  }

  function DestinationMetas(pulls: seq<Pull>): (s: seq<Meta>)
    ensures |s| == |pulls|
  {
    seq(|pulls|, i requires 0 <= i < |pulls| => ReadOnly(pulls[i].destination))
  }

  /** One count byte per order: the pull count cast to `u8`. */
  function CountBytes(entries: seq<OrderEntry>): (s: seq<Byte>)
    ensures |s| == |entries|
  {
    seq(|entries|, k requires 0 <= k < |entries| => |entries[k].pulls| % 256)
  }

  function AllAmounts(entries: seq<OrderEntry>): (s: seq<U64>)
  {
    if entries == [] then [] else PullAmounts(entries[0].pulls) + AllAmounts(entries[1..])
  }

  function EntryMetas(ids: Ids, e: OrderEntry): (s: seq<Meta>)
    ensures |s| == 3 + |e.pulls|
  {
    [ReadOnly(e.pda), ReadOnly(e.sellAccount), ReadOnly(MintSlot(ids, e.sellMint))] + DestinationMetas(e.pulls)
  }

  function AllMetas(ids: Ids, entries: seq<OrderEntry>): (s: seq<Meta>)
  {
    if entries == [] then [] else EntryMetas(ids, entries[0]) + AllMetas(ids, entries[1..])
  }

  function UnsignedOf(x: int): (v: U64)
    requires -0x8000_0000_0000_0000 <= x < 0x8000_0000_0000_0000
    ensures SignedOf(v) == x
  {
    if x >= 0 then x else x + 0x1_0000_0000_0000_0000
  }

  function BeginData(b: BeginBuilder): (data: seq<Byte>)
    requires b.Parallel()
  {
    var entries := SortedEntries(b);
    [0] + LeBytes(b.finalizeIx, 2) + U64ToBytes(UnsignedOf(b.auctionId)) + [|entries| % 256]
    + CountBytes(entries) + PackU64s(AllAmounts(entries))
  }

  function BeginMetas(ids: Ids, b: BeginBuilder): (metas: seq<Meta>)
    requires b.Parallel()
  {
    [Meta(b.solver, true), ReadOnly(ids.sysvar), ReadOnly(b.statePda)] + TokenProgramMetas(ids, b.only)
    + AllMetas(ids, SortedEntries(b))
  }

  lemma {:induction false} AllMetasAppend(ids: Ids, x: seq<OrderEntry>, e: OrderEntry)
    ensures AllMetas(ids, x + [e]) == AllMetas(ids, x) + EntryMetas(ids, e)
  {
    if x == [] {
      assert x + [e] == [e];
    } else {
      AllMetasAppend(ids, x[1..], e);
      assert (x + [e])[1..] == x[1..] + [e];
    }
  }

  /** The builder as it runs: sort a shared permutation, then push each order's accounts. */
  method BuildBegin(ids: Ids, b: BeginBuilder) returns (data: seq<Byte>, metas: seq<Meta>)
    requires b.Parallel()
    ensures data == BeginData(b) && metas == BeginMetas(ids, b)
  {
    var order := SortIndices(b.orderPdas, |b.orderPdas|);
    var counts, amounts := PushAmounts(Entries(b), order);
    data := [0] + LeBytes(b.finalizeIx, 2) + U64ToBytes(UnsignedOf(b.auctionId)) + [|b.orderPdas| % 256]
          + counts + amounts;
    var fixed := [Meta(b.solver, true), ReadOnly(ids.sysvar), ReadOnly(b.statePda)] + TokenProgramMetas(ids, b.only);
    var orderMetas := PushOrderMetas(ids, Entries(b), order);
    metas := fixed + orderMetas;
  }

  lemma {:induction false} AllAmountsAppend(x: seq<OrderEntry>, e: OrderEntry)
    ensures AllAmounts(x + [e]) == AllAmounts(x) + PullAmounts(e.pulls)
  {
    if x == [] {
      assert x + [e] == [e];
    } else {
      AllAmountsAppend(x[1..], e);
      assert (x + [e])[1..] == x[1..] + [e];
    }
  }

  /** The count byte and the amounts of each order, in the order of the permutation. */
  method PushAmounts(entries: seq<OrderEntry>, order: seq<nat>) returns (counts: seq<Byte>, amounts: seq<Byte>)
    requires forall k :: 0 <= k < |order| ==> order[k] < |entries|
    ensures counts == CountBytes(Gather(entries, order)) && amounts == PackU64s(AllAmounts(Gather(entries, order)))
  {
    ghost var sorted := Gather(entries, order);
    counts, amounts := [], [];
    for k := 0 to |order|
      invariant counts == CountBytes(sorted[..k]) && amounts == PackU64s(AllAmounts(sorted[..k]))
    {
      var pulls := entries[order[k]].pulls;
      assert sorted[..k + 1] == sorted[..k] + [sorted[k]];
      AllAmountsAppend(sorted[..k], sorted[k]);
      counts := counts + [|pulls| % 256];
      amounts := PushPullAmounts(amounts, pulls, AllAmounts(sorted[..k]));
    }
    assert sorted[..|order|] == sorted;
  }

  /** One order's amounts, appended in little-endian bytes. */
  method PushPullAmounts(before: seq<Byte>, pulls: seq<Pull>, ghost soFar: seq<U64>) returns (amounts: seq<Byte>)
    requires before == PackU64s(soFar)
    ensures amounts == PackU64s(soFar + PullAmounts(pulls))
  {
    amounts := before;
    assert soFar + PullAmounts(pulls)[..0] == soFar;
    for j := 0 to |pulls|
      invariant amounts == PackU64s(soFar + PullAmounts(pulls)[..j])
    {
      var one := [pulls[j].amount];
      PackAppend(soFar + PullAmounts(pulls)[..j], one);
      assert one[1..] == [] && PackU64s(one) == U64ToBytes(pulls[j].amount) + PackU64s(one[1..]);
      assert PullAmounts(pulls)[..j + 1] == PullAmounts(pulls)[..j] + [pulls[j].amount];
      assert soFar + PullAmounts(pulls)[..j + 1] == soFar + PullAmounts(pulls)[..j] + [pulls[j].amount];
      amounts := amounts + U64ToBytes(pulls[j].amount);
    }
    assert PullAmounts(pulls)[..|pulls|] == PullAmounts(pulls);
  }

  /** Push the accounts of each order, in the order of the permutation. */
  method PushOrderMetas(ids: Ids, entries: seq<OrderEntry>, order: seq<nat>) returns (metas: seq<Meta>)
    requires forall k :: 0 <= k < |order| ==> order[k] < |entries|
    ensures metas == AllMetas(ids, Gather(entries, order))
  {
    ghost var sorted := Gather(entries, order);
    metas := [];
    for k := 0 to |order|
      invariant metas == AllMetas(ids, sorted[..k])
    {
      var group := PushEntryMetas(ids, entries[order[k]]);
      AllMetasAppend(ids, sorted[..k], sorted[k]);
      assert sorted[..k + 1] == sorted[..k] + [sorted[k]];
      metas := metas + group;
    }
    assert sorted[..|order|] == sorted;
  }

  /** One order's accounts: its three fixed ones, then a destination per pull. */
  method PushEntryMetas(ids: Ids, e: OrderEntry) returns (metas: seq<Meta>)
    ensures metas == EntryMetas(ids, e)
  {
    metas := [ReadOnly(e.pda), ReadOnly(e.sellAccount), ReadOnly(MintSlot(ids, e.sellMint))];
    for j := 0 to |e.pulls|
      invariant metas == [ReadOnly(e.pda), ReadOnly(e.sellAccount), ReadOnly(MintSlot(ids, e.sellMint))]
                         + DestinationMetas(e.pulls)[..j]
    {
      metas := metas + [ReadOnly(e.pulls[j].destination)];
    }
    assert DestinationMetas(e.pulls)[..|e.pulls|] == DestinationMetas(e.pulls);
  }

  // ---- round trip ----

  ghost predicate PullsFit(entries: seq<OrderEntry>)
  {
    forall k :: 0 <= k < |entries| ==> |entries[k].pulls| <= 255
  }

  /** The order a parser should hand back for one entry. */
  function Expected(ids: Ids, e: OrderEntry): (o: SettledOrder<Meta>)
  {
    SettledOrder(ReadOnly(e.pda), ReadOnly(e.sellAccount), ReadOnly(MintSlot(ids, e.sellMint)),
                 DestinationMetas(e.pulls), PullAmounts(e.pulls))
  }

  lemma {:induction false} MetaCount(ids: Ids, entries: seq<OrderEntry>)
    ensures |AllMetas(ids, entries)| == 3 * |entries| + |AllAmounts(entries)|
  {
    if entries != [] {
      MetaCount(ids, entries[1..]);
    }
  }

  lemma PullsFitTail(entries: seq<OrderEntry>)
    requires entries != []
    ensures PullsFit(entries) <==> |entries[0].pulls| <= 255 && PullsFit(entries[1..])
  {
    assert forall k :: 1 <= k < |entries| ==> entries[k] == entries[1..][k - 1];
  }

  /** The count bytes add up to at most the amounts, and to exactly that when none wrapped. */
  lemma {:induction false} CountSum(entries: seq<OrderEntry>)
    ensures Sum(CountBytes(entries)) <= |AllAmounts(entries)|
    ensures Sum(CountBytes(entries)) == |AllAmounts(entries)| <==> PullsFit(entries)
  {
    if entries != [] {
      CountSum(entries[1..]);
      PullsFitTail(entries);
      assert CountBytes(entries)[1..] == CountBytes(entries[1..]);
      OneByteCount(|entries[0].pulls|);
    }
  }

  lemma OneByteCount(n: nat)
    ensures n % 256 <= n && (n % 256 == n <==> n <= 255)
  {}

  lemma LayoutSizes(ids: Ids, entries: seq<OrderEntry>)
    ensures |AllMetas(ids, entries)| == 3 * |entries| + |AllAmounts(entries)|
    ensures Sum(CountBytes(entries)) <= |AllAmounts(entries)|
    ensures Sum(CountBytes(entries)) == |AllAmounts(entries)| <==> PullsFit(entries)
  {
    MetaCount(ids, entries);
    CountSum(entries);
  }

  function Layout(ids: Ids, entries: seq<OrderEntry>): (o: SettledOrders<Meta>)
  {
    SettledOrders(AllMetas(ids, entries), CountBytes(entries), AllAmounts(entries))
  }

  lemma {:induction false} SplitBuilt(ids: Ids, entries: seq<OrderEntry>)
    requires PullsFit(entries)
    ensures Consistent(Layout(ids, entries))
    ensures forall k :: 0 <= k < |entries| ==> SplitOrders(Layout(ids, entries))[k] == Expected(ids, entries[k])
  {
    LayoutSizes(ids, entries);
    if entries != [] {
      var o := Layout(ids, entries);
      SplitBuilt(ids, entries[1..]);
      BuiltFirst(ids, entries);
      forall k | 1 <= k < |entries| ensures SplitOrders(o)[k] == Expected(ids, entries[k]) {
        assert SplitOrders(o)[k] == SplitOrders(o)[1..][k - 1];
        assert entries[k] == entries[1..][k - 1];
      }
    }
  }

  lemma BuiltFirst(ids: Ids, entries: seq<OrderEntry>)
    requires entries != [] && PullsFit(entries) && Consistent(Layout(ids, entries))
    ensures AfterFirst(Layout(ids, entries)) == Layout(ids, entries[1..])
    ensures SplitOrders(Layout(ids, entries))[0] == Expected(ids, entries[0])
  {
    var o := Layout(ids, entries);
    var e := entries[0];
    var c := |e.pulls|;
    assert o.counts[0] == c;
    assert o.counts[1..] == CountBytes(entries[1..]);
    assert o.amounts[..c] == PullAmounts(e.pulls) && o.amounts[c..] == AllAmounts(entries[1..]);
    assert o.accounts[3 + c..] == AllMetas(ids, entries[1..]);
    assert o.accounts[3..3 + c] == DestinationMetas(e.pulls);
  }

  /** The two bytes of a link. */
  lemma LinkBytes(link: nat)
    requires link < 0x1_0000
    ensures LeBytes(link, 2) == [link % 256, link / 256]
  {
    assert LeBytes(link / 256, 1) == [link / 256 % 256] + LeBytes(link / 256 / 256, 0);
  }

  /** Where the fixed fields of a BeginSettle sit. */
  lemma BeginSlots(link: seq<Byte>, id: seq<Byte>, n: Byte, tail: seq<Byte>, data: seq<Byte>)
    requires |link| == 2 && |id| == 8 && data == [0] + link + id + [n] + tail
    ensures |data| == 12 + |tail| && data[0] == 0
    ensures data[1..][..2] == link && data[1..][2..] == data[3..]
    ensures data[3..11] == id && data[11] == n && data[12..] == tail
  {}

  /** The fixed prefix of the built data reads back. */
  lemma BeginPrefix(b: BeginBuilder)
    requires b.Parallel()
    ensures var data := BeginData(b);
      && RecoverDiscriminator(data).Ok? && RecoverDiscriminator(data).value.0.BeginSettle?
      && |data| >= 12
      && RecoverCounterpart(data[1..]) == Ok((b.finalizeIx, data[3..]))
      && U64OfBytes(data[3..11]) == UnsignedOf(b.auctionId)
      && data[11] == |b.orderPdas| % 256
      && data[12..] == CountBytes(SortedEntries(b)) + PackU64s(AllAmounts(SortedEntries(b)))
  {
    var data, f, id, n := BeginData(b), b.finalizeIx, U64ToBytes(UnsignedOf(b.auctionId)), |b.orderPdas| % 256;
    var counts, packed := CountBytes(SortedEntries(b)), PackU64s(AllAmounts(SortedEntries(b)));
    assert data == [0] + LeBytes(f, 2) + id + [n] + (counts + packed);
    BeginSlots(LeBytes(f, 2), id, n, counts + packed, data);
    LinkBytes(f);
    assert data[1..][0] == data[1..][..2][0] && data[1..][1] == data[1..][..2][1];
    U64RoundTrip(UnsignedOf(b.auctionId));
  }

  lemma WrappedCountFails(n: nat, m: nat, t: nat)
    requires m == n % 256 && n > 255
    ensures (n - m + 8 * t) % 8 == 0
    ensures 3 * n + t != 3 * m + (n - m + 8 * t) / 8
  {
    var q := n / 256;
    assert n - m == 256 * q && q > 0;
    assert n - m + 8 * t == 8 * (32 * q + t);
  }

  lemma WrappedOrdersFail(ids: Ids, entries: seq<OrderEntry>)
    requires |entries| > 255
    ensures ParseOrders(|entries| % 256, CountBytes(entries) + PackU64s(AllAmounts(entries)), AllMetas(ids, entries))
         == Err(AccountCountNotMatchingOrderCount)
  {
    var n, m, t := |entries|, |entries| % 256, |AllAmounts(entries)|;
    LayoutSizes(ids, entries);
    WrappedCountFails(n, m, t);
    var rest := (CountBytes(entries) + PackU64s(AllAmounts(entries)))[m..];
    assert |rest| == n - m + 8 * t;
    assert |U64Chunks(rest)| == |rest| / 8;
  }

  lemma ParsesTail<A>(counts: seq<Byte>, amounts: seq<U64>, accounts: seq<A>)
    requires |counts| <= 255 && |accounts| == 3 * |counts| + |amounts|
    ensures ParseOrders(|counts|, counts + PackU64s(amounts), accounts)
         == if Sum(counts) != |amounts| then Err(TransferCountMismatch)
            else Ok(SettledOrders(accounts, counts, amounts))
  {
    var packed := PackU64s(amounts);
    assert (counts + packed)[..|counts|] == counts && (counts + packed)[|counts|..] == packed;
    PackRoundTrip(amounts);
  }

  lemma FittingOrdersParse(ids: Ids, entries: seq<OrderEntry>)
    requires |entries| <= 255
    ensures ParseOrders(|entries|, CountBytes(entries) + PackU64s(AllAmounts(entries)), AllMetas(ids, entries))
         == if PullsFit(entries) then Ok(Layout(ids, entries)) else Err(TransferCountMismatch)
  {
    LayoutSizes(ids, entries);
    ParsesTail(CountBytes(entries), AllAmounts(entries), AllMetas(ids, entries));
  }

  /** The variable part parses exactly when neither the order count nor a pull count wrapped. */
  lemma ParseBuiltOrders(ids: Ids, entries: seq<OrderEntry>)
    ensures var r := ParseOrders(|entries| % 256, CountBytes(entries) + PackU64s(AllAmounts(entries)), AllMetas(ids, entries));
      if |entries| > 255 then r == Err(AccountCountNotMatchingOrderCount)
      else if !PullsFit(entries) then r == Err(TransferCountMismatch)
      else r == Ok(Layout(ids, entries))
  {
    if |entries| > 255 {
      WrappedOrdersFail(ids, entries);
    } else {
      assert |entries| % 256 == |entries|;
      FittingOrdersParse(ids, entries);
    }
  }

  /** What parsing a built BeginSettle gives, in one expression. */
  lemma ParseBuilt(ids: Ids, b: BeginBuilder)
    requires b.Parallel()
    ensures var r := ParseBegin(BeginData(b), BeginMetas(ids, b));
      var entries := SortedEntries(b);
      if |entries| > 255 then r == Err(AccountCountNotMatchingOrderCount)
      else if !PullsFit(entries) then r == Err(TransferCountMismatch)
      else r == Ok(BeginInput(b.finalizeIx, b.auctionId, Meta(b.solver, true), ReadOnly(ids.sysvar),
                              ReadOnly(b.statePda), Layout(ids, entries)))
  {
    var entries := SortedEntries(b);
    var data, metas := BeginData(b), BeginMetas(ids, b);
    BeginPrefix(b);
    ParseBuiltOrders(ids, entries);
    var body := data[3..];
    assert body[..8] == data[3..11] && body[8] == data[11] && body[9..] == data[12..];
    assert metas[5..] == AllMetas(ids, entries);
  }

  /** The built instruction parses exactly when the one-byte counts did not wrap. */
  lemma BeginParsesIff(ids: Ids, b: BeginBuilder)
    requires b.Parallel()
    ensures ParseBegin(BeginData(b), BeginMetas(ids, b)).Ok?
       <==> |b.orderPdas| <= 255 && forall i :: 0 <= i < |b.pulls| ==> |b.pulls[i]| <= 255
  {
    ParseBuilt(ids, b);
    var perm := SortIndices(b.orderPdas, |b.orderPdas|);
    if PullsFit(SortedEntries(b)) {
      forall i | 0 <= i < |b.pulls| ensures |b.pulls[i]| <= 255 {
        SortCovers(b.orderPdas, |b.orderPdas|, i);
        var k :| 0 <= k < |perm| && perm[k] == i;
        assert SortedEntries(b)[k].pulls == b.pulls[i];
      }
    }
  }

  /** Round trip up to the sort: parsing hands back the address-sorted permutation, each order
      keeping its own sell account, mint, destinations and amounts. */
  lemma BeginRoundTrip(ids: Ids, b: BeginBuilder)
    requires b.Parallel()
    requires |b.orderPdas| <= 255 && forall i :: 0 <= i < |b.pulls| ==> |b.pulls[i]| <= 255
    ensures ParseBegin(BeginData(b), BeginMetas(ids, b)).Ok?
    ensures var input := ParseBegin(BeginData(b), BeginMetas(ids, b)).value;
      var perm := SortIndices(b.orderPdas, |b.orderPdas|);
      && input.finalizeIx == b.finalizeIx && input.auctionId == b.auctionId
      && input.solver == Meta(b.solver, true) && input.statePda.key == b.statePda
      && input.sysvar.key == ids.sysvar
      && IsPermutation(perm, |b.orderPdas|) && StablySorted(b.orderPdas, perm)
      && |SplitOrders(input.orders)| == |b.orderPdas|
      && forall k :: 0 <= k < |perm| ==>
           SplitOrders(input.orders)[k] == Expected(ids, Entries(b)[perm[k]])
  {
    ParseBuilt(ids, b);
    SplitBuilt(ids, SortedEntries(b));
    SortIsStable(b.orderPdas, |b.orderPdas|);
  }

  /** With distinct order addresses the parsed orders are strictly increasing. */
  lemma BeginStrictlyIncreasing(ids: Ids, b: BeginBuilder)
    requires b.Parallel()
    requires |b.orderPdas| <= 255 && forall i :: 0 <= i < |b.pulls| ==> |b.pulls[i]| <= 255
    requires forall i, j :: 0 <= i < j < |b.orderPdas| ==> b.orderPdas[i] != b.orderPdas[j]
    ensures ParseBegin(BeginData(b), BeginMetas(ids, b)).Ok?
    ensures var orders := SplitOrders(ParseBegin(BeginData(b), BeginMetas(ids, b)).value.orders);
      forall i, j :: 0 <= i < j < |orders| ==> Less(orders[i].orderPda.key, orders[j].orderPda.key)
  {
    BeginRoundTrip(ids, b);
    DistinctSortStrictly(b.orderPdas);
    var orders := SplitOrders(ParseBegin(BeginData(b), BeginMetas(ids, b)).value.orders);
    var sorted := Gather(b.orderPdas, SortIndices(b.orderPdas, |b.orderPdas|));
    assert forall k :: 0 <= k < |orders| ==> orders[k].orderPda.key == sorted[k];
  }

  // ---------------------------------------------------------------------------------------
  // FinalizeSettle
  // ---------------------------------------------------------------------------------------

  datatype FinalizeBuilder = FinalizeBuilder(
    statePda: Address,
    beginIx: nat,
    only: Option<TokenProgram>,
    sources: seq<Address>,
    destinations: seq<Address>,
    mints: seq<Option<Address>>,
    bumps: seq<Byte>,
    amounts: seq<U64>)
  {
    predicate Parallel()
    {
      && |sources| == |destinations| == |mints| == |bumps| == |amounts|
      && beginIx < 0x1_0000
    }
  }

  function FinalizeData(f: FinalizeBuilder): (data: seq<Byte>)
  {
    [1] + LeBytes(f.beginIx, 2) + f.bumps + PackU64s(f.amounts)
  }

  function PushMetas(ids: Ids, f: FinalizeBuilder, n: nat): (metas: seq<Meta>)
    requires f.Parallel() && n <= |f.sources|
    ensures |metas| == 3 * n
    ensures forall k :: 0 <= k < n ==>
      && metas[3 * k] == ReadOnly(f.sources[k])
      && metas[3 * k + 1] == ReadOnly(f.destinations[k])
      && metas[3 * k + 2] == ReadOnly(MintSlot(ids, f.mints[k]))
  {
    if n == 0 then [] else
      PushMetas(ids, f, n - 1)
      + [ReadOnly(f.sources[n - 1]), ReadOnly(f.destinations[n - 1]), ReadOnly(MintSlot(ids, f.mints[n - 1]))]
  }

  function FinalizeMetas(ids: Ids, f: FinalizeBuilder): (metas: seq<Meta>)
    requires f.Parallel()
  {
    [ReadOnly(ids.sysvar), ReadOnly(f.statePda)] + TokenProgramMetas(ids, f.only) + PushMetas(ids, f, |f.sources|)
  }

  method BuildFinalize(ids: Ids, f: FinalizeBuilder) returns (data: seq<Byte>, metas: seq<Meta>)
    requires f.Parallel()
    ensures data == FinalizeData(f) && metas == FinalizeMetas(ids, f)
  {
    data := [1] + LeBytes(f.beginIx, 2) + f.bumps + PackU64s(f.amounts);
    var fixed := [ReadOnly(ids.sysvar), ReadOnly(f.statePda)] + TokenProgramMetas(ids, f.only);
    metas := fixed;
    for k := 0 to |f.sources|
      invariant metas == fixed + PushMetas(ids, f, k)
    {
      metas := metas + [ReadOnly(f.sources[k]), ReadOnly(f.destinations[k]), ReadOnly(MintSlot(ids, f.mints[k]))];
    }
  }

  lemma FinalizePrefix(f: FinalizeBuilder)
    requires f.Parallel()
    ensures var data := FinalizeData(f);
      && RecoverDiscriminator(data).Ok? && RecoverDiscriminator(data).value.0.FinalizeSettle?
      && RecoverCounterpart(data[1..]).Ok?
      && RecoverCounterpart(data[1..]).value == (f.beginIx, f.bumps + PackU64s(f.amounts))
  {
    var data := FinalizeData(f);
    var i := f.beginIx;
    LinkBytes(i);
    assert data[1..] == LeBytes(i, 2) + (f.bumps + PackU64s(f.amounts));
    assert data[1..][2..] == f.bumps + PackU64s(f.amounts);
  }

  lemma ParseBuiltPushes(ids: Ids, f: FinalizeBuilder)
    requires f.Parallel()
    ensures ParsePushes(f.bumps + PackU64s(f.amounts), PushMetas(ids, f, |f.sources|)) == Ok(BuiltPushes(ids, f))
  {
    var body := f.bumps + PackU64s(f.amounts);
    var n := |f.bumps|;
    assert |body| == 9 * n;
    assert body[..n] == f.bumps && body[n..] == PackU64s(f.amounts);
    PackRoundTrip(f.amounts);
    assert SplitPushBytes(body) == Ok((f.bumps, f.amounts));
    var r := ParsePushes(body, PushMetas(ids, f, n));
    assert r.Ok?;
    assert r.value == BuiltPushes(ids, f);
  }

  function BuiltPushes(ids: Ids, f: FinalizeBuilder): (pushes: seq<Push<Meta>>)
    requires f.Parallel()
  {
    seq(|f.bumps|, k requires 0 <= k < |f.bumps| =>
      Push(ReadOnly(f.sources[k]), ReadOnly(f.destinations[k]), ReadOnly(MintSlot(ids, f.mints[k])),
           f.bumps[k], f.amounts[k]))
  }

  /** FinalizeSettle round trip: every list of pushes parses back to itself, in order. */
  lemma FinalizeRoundTrip(ids: Ids, f: FinalizeBuilder)
    requires f.Parallel()
    ensures ParseFinalize(FinalizeData(f), FinalizeMetas(ids, f))
         == Ok(FinalizeInput(f.beginIx, ReadOnly(ids.sysvar), ReadOnly(f.statePda), BuiltPushes(ids, f)))
  {
    FinalizePrefix(f);
    ParseBuiltPushes(ids, f);
    var metas := FinalizeMetas(ids, f);
    assert metas[FINALIZE_FIXED_ACCOUNTS..] == PushMetas(ids, f, |f.sources|);
  }

  lemma TokenProgramSlot(ids: Ids, only: Option<TokenProgram>)
    ensures var metas := TokenProgramMetas(ids, only);
      && metas[0].key == (if only == Some(Token2022) then ids.sysvar else ids.splToken)
      && metas[1].key == (if only == Some(SplToken) then ids.sysvar else ids.token2022)
  {
    assert only.Some? ==> only.value.SplToken? || only.value.Token2022?;
  }

  /** Both instructions name each token program in its slot unless only the other one is used; an unused
      slot repeats the sysvar. */
  lemma TokenProgramSlots(ids: Ids, b: BeginBuilder, f: FinalizeBuilder)
    requires b.Parallel() && f.Parallel()
    ensures var begin, final := BeginMetas(ids, b), FinalizeMetas(ids, f);
      && |begin| >= 5 && |final| >= 4
      && begin[3].key == (if b.only == Some(Token2022) then ids.sysvar else ids.splToken)
      && begin[4].key == (if b.only == Some(SplToken) then ids.sysvar else ids.token2022)
      && final[2].key == (if f.only == Some(Token2022) then ids.sysvar else ids.splToken)
      && final[3].key == (if f.only == Some(SplToken) then ids.sysvar else ids.token2022)
  {
    TokenProgramSlot(ids, b.only);
    TokenProgramSlot(ids, f.only);
    assert BeginMetas(ids, b)[3] == TokenProgramMetas(ids, b.only)[0];
    assert BeginMetas(ids, b)[4] == TokenProgramMetas(ids, b.only)[1];
    assert FinalizeMetas(ids, f)[2] == TokenProgramMetas(ids, f.only)[0];
    assert FinalizeMetas(ids, f)[3] == TokenProgramMetas(ids, f.only)[1];
  }
}
