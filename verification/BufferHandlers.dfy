/** Closing token buffers in a batch: within its limit a balance is burned and the buffer closed,
    over its limit it is skipped, and a batch that closes nothing reverts. */
module BufferHandlers {
  import opened Basics
  import opened SettleWire
  import opened Ledger
  import opened Worlds
  import OrderHandlers
  import StateAccounts

  datatype Entry = Entry(buffer: Address, mint: Address, limit: U64)

  function ParseEntries(metas: seq<Meta>, body: seq<Byte>): (r: Result<seq<Entry>>)
    ensures r.Ok? ==> |metas| >= 6 && r.value != []
  {
    if |metas| < 4 then Err(NotEnoughAccountKeys) else
    var rest := metas[4..];
    if |rest| % 2 != 0 || rest == [] then Err(NotEnoughAccountKeys) else
    var limits := U64Chunks(body);
    if |body| % 8 != 0 || |limits| != |rest| / 2 then Err(InvalidInstructionData) else
    Ok(seq(|limits|, k requires 0 <= k < |limits| => Entry(rest[2 * k].key, rest[2 * k + 1].key, limits[k])))
  }

  /** The accounts and the data list the entries: after the four shared accounts one pair of buffer and
      mint each, and one little-endian limit each, all in the same order. */
  ghost predicate Lists(metas: seq<Meta>, body: seq<Byte>, entries: seq<Entry>)
  {
    && |metas| == 4 + 2 * |entries| && |body| == 8 * |entries|
    && forall k :: 0 <= k < |entries| ==>
         entries[k] == Entry(metas[4 + 2 * k].key, metas[5 + 2 * k].key, U64OfBytes(body[8 * k..8 * k + 8]))
  }

  /** Parsing gives exactly the entries listed, and fails exactly when at least one is not listed. */
  lemma ParseEntriesExact(metas: seq<Meta>, body: seq<Byte>, entries: seq<Entry>)
    ensures ParseEntries(metas, body) == Ok(entries) <==> entries != [] && Lists(metas, body, entries)
    ensures ParseEntries(metas, body).Ok? <==> |metas| >= 6 && |metas| % 2 == 0 && |body| == 4 * (|metas| - 4)
  {
    if ParseEntries(metas, body).Ok? {
      var parsed := ParseEntries(metas, body).value;
      assert Lists(metas, body, parsed);
      if Lists(metas, body, entries) {
        assert parsed == entries;
      }
    }
  }

  /** The token program's burn of `amount` from `buffer`, reducing the mint's supply. */
  function Burn(env: Env, w: World, buffer: Address, mint: Address, amount: U64): (r: Result<World>)
    requires buffer in w.tokens
  {
    var account := w.tokens[buffer];
    if mint !in w.mints || w.mints[mint].program != account.program then Err(TokenProgramFailure) else
    if account.mint != mint || account.amount < amount || !MayMove(account, env.statePda, amount)
    then Err(TokenProgramFailure) else
    if w.mints[mint].supply < amount then Err(TokenProgramFailure) else
    Ok(w.(tokens := w.tokens[buffer := Debit(account, env.statePda, amount)],
          mints := w.mints[mint := w.mints[mint].(supply := w.mints[mint].supply - amount)]))
  }

  /** The token program's close of an empty account, its lamports going to `recipient`. */
  function Close(env: Env, w: World, buffer: Address, recipient: Address): (r: Result<World>)
    requires buffer in w.tokens
  {
    var account := w.tokens[buffer];
    if account.amount != 0 || account.owner != env.statePda || recipient == buffer
    then Err(TokenProgramFailure) else
    match OrderHandlers.CloseInto(w.lamports, buffer, recipient)
    case Err(_) => Err(TokenProgramFailure)
    case Ok(l) => Ok(w.(tokens := w.tokens - {buffer}, lamports := l))
  }

  /** Burn what is left, then close. */
  function BurnAndClose(env: Env, w: World, e: Entry, recipient: Address): (r: Result<World>)
    requires e.buffer in w.tokens
  {
    var amount := w.tokens[e.buffer].amount;
    var w1 :- if amount > 0 then Burn(env, w, e.buffer, e.mint, amount) else Ok(w);
    Close(env, w1, e.buffer, recipient)
  }

  /** The buffer is the canonical one of its mint and is a token account. */
  function CheckEntry(env: Env, w: World, e: Entry): (r: Result<()>)
    ensures r.Ok? ==> e.buffer in w.tokens
  {
    var found := FindBuffer(env, e.mint);
    if found.None? || found.value.0 != e.buffer then Err(ReclaimBufferNotCanonical) else
    if e.buffer !in w.tokens then Err(InvalidTokenProgram) else Ok(())
  }

  function ReclaimEntries(env: Env, w: World, recipient: Address, entries: seq<Entry>, any: bool)
    : (r: Result<(World, bool)>)
    decreases |entries|
  {
    if entries == [] then Ok((w, any)) else
    var e := entries[0];
    var _ :- CheckEntry(env, w, e);
    if w.tokens[e.buffer].amount > e.limit then ReclaimEntries(env, w, recipient, entries[1..], any) else
    var w1 :- BurnAndClose(env, w, e, recipient);
    ReclaimEntries(env, w1, recipient, entries[1..], true)
  }

  /** The authorisation that precedes the batch. */
  function CheckReclaimAuthority(env: Env, w: World, metas: seq<Meta>): (r: Result<()>)
    requires |metas| >= 4
  {
    if metas[0].key != env.statePda then Err(StateAccountMismatch) else
    if !StateAccounts.Attachable(w.state) then Err(InvalidAccountData) else
    if !metas[1].signer || metas[1].key != StateAccounts.Authority(w.state, StateAccounts.ReclaimAuthority)
    then Err(ReclaimAuthorityMismatch) else Ok(())
  }

  function ProcessReclaimBuffer(env: Env, w: World, metas: seq<Meta>, body: seq<Byte>): (r: Result<Outcome>)
  {
    var entries :- ParseEntries(metas, body);
    var _ :- CheckReclaimAuthority(env, w, metas);
    var (w', any) :- ReclaimEntries(env, w, metas[2].key, entries, false);
    if any then Ok(Outcome(w', [])) else Err(ReclaimBufferBurnLimitExceeded)
  }

  // ---------------------------------------------------------------------------------------
  // What a batch does
  // ---------------------------------------------------------------------------------------

  /** Some entry of the batch authorises clearing the buffer at `a` with its balance in `t`. */
  ghost predicate WithinLimit(t: Tokens, entries: seq<Entry>, a: Address)
  {
    a in t && exists k :: 0 <= k < |entries| && entries[k].buffer == a && t[a].amount <= entries[k].limit
  }

  /** The batch removed exactly the authorised buffers and left every other account untouched;
      each mint's supply fell by exactly the balances removed; lamports were conserved. */
  ghost predicate Reclaims(w: World, entries: seq<Entry>, w': World)
  {
    && w'.orders == w.orders && w'.state == w.state
    && (forall a :: a in w'.tokens <==> a in w.tokens && !WithinLimit(w.tokens, entries, a))
    && (forall a :: a in w'.tokens ==> w'.tokens[a] == w.tokens[a])
    && w'.mints.Keys == w.mints.Keys
    && (forall m :: m in w.mints ==>
          w'.mints[m].supply + Total(Balances(w.tokens, m)) == w.mints[m].supply + Total(Balances(w'.tokens, m)))
    && Total(w'.lamports) == Total(w.lamports)
  }

  /** What clearing the account at `a` takes out of mint `m`. */
  function BurnedFrom(t: Tokens, a: Address, m: Address): (n: nat)
    requires a in t
  {
    if t[a].mint == m then t[a].amount else 0
  }

  lemma RemovedBalance(t: Tokens, a: Address, m: Address)
    requires a in t
    ensures Total(Balances(t, m)) == Total(Balances(t - {a}, m)) + BurnedFrom(t, a, m)
  {
    var b := Balances(t, m);
    if t[a].mint == m {
      TotalWithout(b, a);
      assert Balances(t - {a}, m) == b - {a};
    } else {
      assert Balances(t - {a}, m) == b;
    }
  }

  lemma BurnAndCloseEffect(env: Env, w: World, e: Entry, recipient: Address)
    requires e.buffer in w.tokens
    requires BurnAndClose(env, w, e, recipient).Ok?
    ensures var w' := BurnAndClose(env, w, e, recipient).value;
      && w'.orders == w.orders && w'.state == w.state
      && w'.tokens == w.tokens - {e.buffer}
      && w'.mints.Keys == w.mints.Keys
      && (forall m :: m in w.mints ==>
            w.mints[m].supply == w'.mints[m].supply + BurnedFrom(w.tokens, e.buffer, m))
      && Total(w'.lamports) == Total(w.lamports)
  {
    var amount := w.tokens[e.buffer].amount;
    var w1 := if amount > 0 then Burn(env, w, e.buffer, e.mint, amount).value else w;
    OrderHandlers.CloseConservesIff(w1.lamports, e.buffer, recipient);
    assert w1.tokens - {e.buffer} == w.tokens - {e.buffer};
  }

  lemma CloseThenRest(w: World, w1: World, e: Entry, rest: seq<Entry>, w': World)
    requires e.buffer in w.tokens && w.tokens[e.buffer].amount <= e.limit
    requires w1.orders == w.orders && w1.state == w.state && w1.tokens == w.tokens - {e.buffer}
    requires w1.mints.Keys == w.mints.Keys && Total(w1.lamports) == Total(w.lamports)
    requires forall m :: m in w.mints ==>
      w.mints[m].supply == w1.mints[m].supply + BurnedFrom(w.tokens, e.buffer, m)
    requires Reclaims(w1, rest, w')
    ensures Reclaims(w, [e] + rest, w')
  {
    var entries := [e] + rest;
    assert forall k :: 1 <= k < |entries| ==> entries[k] == rest[k - 1];
    assert entries[0] == e;
    forall a ensures a in w'.tokens <==> a in w.tokens && !WithinLimit(w.tokens, entries, a) {
      if a in w.tokens && a != e.buffer {
        assert WithinLimit(w.tokens, entries, a) <==> WithinLimit(w1.tokens, rest, a) by {
          if WithinLimit(w1.tokens, rest, a) {
            var k :| 0 <= k < |rest| && rest[k].buffer == a && w1.tokens[a].amount <= rest[k].limit;
            assert entries[k + 1] == rest[k];
          }
        }
      }
    }
    forall m | m in w.mints
      ensures w'.mints[m].supply + Total(Balances(w.tokens, m)) == w.mints[m].supply + Total(Balances(w'.tokens, m))
    {
      RemovedBalance(w.tokens, e.buffer, m);
    }
  }

  lemma SkipThenRest(w: World, e: Entry, rest: seq<Entry>, w': World)
    requires e.buffer in w.tokens && w.tokens[e.buffer].amount > e.limit
    requires Reclaims(w, rest, w')
    ensures Reclaims(w, [e] + rest, w')
  {
    var entries := [e] + rest;
    assert entries[0] == e;
    forall a ensures WithinLimit(w.tokens, entries, a) <==> WithinLimit(w.tokens, rest, a) {
      if WithinLimit(w.tokens, rest, a) {
        var k :| 0 <= k < |rest| && rest[k].buffer == a && w.tokens[a].amount <= rest[k].limit;
        assert entries[k + 1] == rest[k];
      }
      if WithinLimit(w.tokens, entries, a) {
        var k :| 0 <= k < |entries| && entries[k].buffer == a && w.tokens[a].amount <= entries[k].limit;
        assert entries[k] == rest[k - 1];
      }
    }
  }

  lemma {:induction false} ReclaimEntriesEffect(env: Env, w: World, recipient: Address, entries: seq<Entry>, any: bool)
    requires ReclaimEntries(env, w, recipient, entries, any).Ok?
    ensures Reclaims(w, entries, ReclaimEntries(env, w, recipient, entries, any).value.0)
    decreases |entries|
  {
    if entries != [] {
      var e, rest := entries[0], entries[1..];
      var w' := ReclaimEntries(env, w, recipient, entries, any).value.0;
      assert entries == [e] + rest;
      if w.tokens[e.buffer].amount > e.limit {
        ReclaimEntriesEffect(env, w, recipient, rest, any);
        SkipThenRest(w, e, rest, w');
      } else {
        BurnAndCloseEffect(env, w, e, recipient);
        var w1 := BurnAndClose(env, w, e, recipient).value;
        ReclaimEntriesEffect(env, w1, recipient, rest, true);
        CloseThenRest(w, w1, e, rest, w');
      }
    }
  }

  lemma ReclaimBufferEffect(env: Env, w: World, metas: seq<Meta>, body: seq<Byte>)
    requires ProcessReclaimBuffer(env, w, metas, body).Ok?
    ensures ParseEntries(metas, body).Ok?
    ensures Reclaims(w, ParseEntries(metas, body).value, ProcessReclaimBuffer(env, w, metas, body).value.world)
  {
    ReclaimEntriesEffect(env, w, metas[2].key, ParseEntries(metas, body).value, false);
  }

  /** The account at `x` was closed and emptied, or, unless it is the recipient, kept its
      lamports; it did not appear. */
  ghost predicate RentMoved(w: World, recipient: Address, w': World, x: Address)
  {
    && (x in w'.tokens ==> x in w.tokens)
    && (x in w.tokens && x !in w'.tokens ==> x != recipient && Get(w'.lamports, x) == 0)
    && (x != recipient && (x in w.tokens ==> x in w'.tokens) ==> Get(w'.lamports, x) == Get(w.lamports, x))
  }

  lemma BurnAndCloseRent(env: Env, w: World, e: Entry, recipient: Address, x: Address)
    requires e.buffer in w.tokens && BurnAndClose(env, w, e, recipient).Ok?
    ensures RentMoved(w, recipient, BurnAndClose(env, w, e, recipient).value, x)
  {
    BurnAndCloseEffect(env, w, e, recipient);
  }

  lemma {:induction false} ReclaimEntriesRent(env: Env, w: World, recipient: Address, entries: seq<Entry>,
                                              any: bool, x: Address)
    requires ReclaimEntries(env, w, recipient, entries, any).Ok?
    ensures RentMoved(w, recipient, ReclaimEntries(env, w, recipient, entries, any).value.0, x)
    decreases |entries|
  {
    if entries != [] {
      var e, rest := entries[0], entries[1..];
      if w.tokens[e.buffer].amount > e.limit {
        ReclaimEntriesRent(env, w, recipient, rest, any, x);
      } else {
        BurnAndCloseRent(env, w, e, recipient, x);
        ReclaimEntriesRent(env, BurnAndClose(env, w, e, recipient).value, recipient, rest, true, x);
      }
    }
  }

  /** The rent of the closed buffers goes to the recipient: they end empty, every other account
      keeps its lamports, and none is lost on the way. */
  lemma ReclaimedRentGoesToRecipient(env: Env, w: World, metas: seq<Meta>, body: seq<Byte>)
    requires ProcessReclaimBuffer(env, w, metas, body).Ok?
    ensures var w' := ProcessReclaimBuffer(env, w, metas, body).value.world;
      && Total(w'.lamports) == Total(w.lamports)
      && forall x :: x != metas[2].key ==>
           Get(w'.lamports, x) == if x in w.tokens && x !in w'.tokens then 0 else Get(w.lamports, x)
  {
    var entries := ParseEntries(metas, body).value;
    ReclaimBufferEffect(env, w, metas, body);
    var w' := ProcessReclaimBuffer(env, w, metas, body).value.world;
    forall x | x != metas[2].key
      ensures Get(w'.lamports, x) == if x in w.tokens && x !in w'.tokens then 0 else Get(w.lamports, x)
    {
      ReclaimEntriesRent(env, w, metas[2].key, entries, false, x);
    }
  }

  // ---------------------------------------------------------------------------------------
  // When a batch succeeds
  // ---------------------------------------------------------------------------------------

  /** The entry's buffer is held within its limit, so it is to be closed. */
  ghost predicate Closes(w: World, e: Entry)
  {
    e.buffer in w.tokens && w.tokens[e.buffer].amount <= e.limit
  }

  ghost predicate AnyCloses(w: World, entries: seq<Entry>)
  {
    exists k :: 0 <= k < |entries| && Closes(w, entries[k])
  }

  /** The token program lets the settlement burn what is left in the entry's buffer and close it. */
  ghost predicate Closable(env: Env, w: World, recipient: Address, e: Entry)
    requires e.buffer in w.tokens
  {
    var account := w.tokens[e.buffer];
    && account.owner == env.statePda && e.buffer != recipient
    && (account.amount > 0 ==>
          && account.mint == e.mint && e.mint in w.mints && w.mints[e.mint].program == account.program
          && account.amount <= w.mints[e.mint].supply
          && (account.delegate == Some(env.statePda) ==> account.amount <= account.allowance))
  }

  /** The entry names a live buffer at its mint's canonical address, and one to be closed can be. */
  ghost predicate EntryOk(env: Env, w: World, recipient: Address, e: Entry)
  {
    && FindBuffer(env, e.mint).Some? && FindBuffer(env, e.mint).value.0 == e.buffer && e.buffer in w.tokens
    && (Closes(w, e) ==> Closable(env, w, recipient, e))
  }

  /** The rent the batch frees. */
  ghost function Freed(w: World, entries: seq<Entry>): (n: nat)
  {
    if entries == [] then 0
    else (if Closes(w, entries[0]) then Get(w.lamports, entries[0].buffer) else 0) + Freed(w, entries[1..])
  }

  /** Every entry is in order, no buffer is named again once closed, and the recipient has room. */
  ghost predicate BatchOk(env: Env, w: World, recipient: Address, entries: seq<Entry>)
  {
    && (forall k :: 0 <= k < |entries| ==> EntryOk(env, w, recipient, entries[k]))
    && (forall j, k :: 0 <= j < k < |entries| && Closes(w, entries[j]) ==> entries[k].buffer != entries[j].buffer)
    && (forall k :: 0 <= k < |entries| && Closes(w, entries[k]) ==>
          Get(w.lamports, recipient) + Freed(w, entries) <= U64_MAX)
  }

  /** One buffer was closed: its tokens are burned and its lamports are with the recipient. */
  ghost predicate Closed(w: World, e: Entry, recipient: Address, w': World)
  {
    && w'.tokens == w.tokens - {e.buffer}
    && (forall m :: m != e.mint ==> (m in w'.mints <==> m in w.mints) && (m in w.mints ==> w'.mints[m] == w.mints[m]))
    && w'.lamports == w.lamports[recipient := Get(w.lamports, recipient) + Get(w.lamports, e.buffer)][e.buffer := 0]
  }

  lemma BurnAndCloseExact(env: Env, w: World, e: Entry, recipient: Address)
    requires e.buffer in w.tokens
    ensures var r := BurnAndClose(env, w, e, recipient);
      && (r.Ok? <==> Closable(env, w, recipient, e)
                     && Get(w.lamports, recipient) + Get(w.lamports, e.buffer) <= U64_MAX)
      && (r.Ok? ==> Closed(w, e, recipient, r.value))
      && (r.Err? ==> r.error == TokenProgramFailure)
  {
    var account := w.tokens[e.buffer];
    if account.amount > 0 && Burn(env, w, e.buffer, e.mint, account.amount).Ok? {
      assert Burn(env, w, e.buffer, e.mint, account.amount).value.tokens - {e.buffer} == w.tokens - {e.buffer};
    }
  }

  /** Closing one canonical buffer leaves every other entry as it was, and spoils one naming it again. */
  lemma OthersAsBefore(env: Env, w: World, e: Entry, recipient: Address, w': World, other: Entry)
    requires EntryOk(env, w, recipient, e) && Closed(w, e, recipient, w')
    ensures EntryOk(env, w', recipient, other) <==> EntryOk(env, w, recipient, other) && other.buffer != e.buffer
    ensures other.buffer != e.buffer ==> (Closes(w', other) <==> Closes(w, other))
  {
    assert other.mint == e.mint && FindBuffer(env, other.mint).Some? ==> FindBuffer(env, other.mint).value.0 == e.buffer;
  }

  lemma {:induction false} FreedAsBefore(w: World, e: Entry, recipient: Address, w': World, entries: seq<Entry>)
    requires Closed(w, e, recipient, w')
    requires forall k :: 0 <= k < |entries| ==> entries[k].buffer != e.buffer
    requires forall k :: 0 <= k < |entries| && Closes(w, entries[k]) ==> entries[k].buffer != recipient
    ensures Freed(w', entries) == Freed(w, entries)
  {
    if entries != [] {
      assert Closes(w', entries[0]) <==> Closes(w, entries[0]);
      FreedAsBefore(w, e, recipient, w', entries[1..]);
    }
  }

  lemma {:induction false} NothingFreed(w: World, entries: seq<Entry>)
    requires forall k :: 0 <= k < |entries| ==> !Closes(w, entries[k])
    ensures Freed(w, entries) == 0
  {
    if entries != [] {
      NothingFreed(w, entries[1..]);
    }
  }

  lemma BatchOkSkip(env: Env, w: World, recipient: Address, e: Entry, rest: seq<Entry>)
    requires !Closes(w, e)
    ensures BatchOk(env, w, recipient, [e] + rest) <==> EntryOk(env, w, recipient, e) && BatchOk(env, w, recipient, rest)
    ensures AnyCloses(w, [e] + rest) <==> AnyCloses(w, rest)
  {
    var entries := [e] + rest;
    assert entries[1..] == rest && entries[0] == e;
    assert forall k :: 0 <= k < |rest| ==> rest[k] == entries[k + 1];
    assert forall k :: 1 <= k < |entries| ==> entries[k] == rest[k - 1];
  }

  lemma BatchOkClose(env: Env, w: World, recipient: Address, e: Entry, rest: seq<Entry>, w': World)
    requires Closes(w, e) && EntryOk(env, w, recipient, e) && Closed(w, e, recipient, w')
    requires Get(w.lamports, recipient) + Get(w.lamports, e.buffer) <= U64_MAX
    ensures BatchOk(env, w, recipient, [e] + rest) <==> BatchOk(env, w', recipient, rest)
  {
    var entries := [e] + rest;
    assert entries[1..] == rest && entries[0] == e;
    assert forall k :: 0 <= k < |rest| ==> rest[k] == entries[k + 1];
    assert forall k :: 1 <= k < |entries| ==> entries[k] == rest[k - 1];
    forall k | 0 <= k < |rest|
      ensures EntryOk(env, w', recipient, rest[k]) <==> EntryOk(env, w, recipient, rest[k]) && rest[k].buffer != e.buffer
      ensures rest[k].buffer != e.buffer ==> (Closes(w', rest[k]) <==> Closes(w, rest[k]))
    {
      OthersAsBefore(env, w, e, recipient, w', rest[k]);
    }
    if forall k :: 0 <= k < |rest| ==> EntryOk(env, w, recipient, rest[k]) && rest[k].buffer != e.buffer {
      FreedAsBefore(w, e, recipient, w', rest);
      assert Get(w'.lamports, recipient) == Get(w.lamports, recipient) + Get(w.lamports, e.buffer);
      assert Freed(w, entries) == Get(w.lamports, e.buffer) + Freed(w, rest);
      if forall k :: 0 <= k < |rest| ==> !Closes(w, rest[k]) {
        NothingFreed(w, rest);
      }
    }
  }

  /** What the entries come to: they run through exactly when the batch is in order, and then report a
      closing exactly when some entry is within its limit; the burn-limit error never comes from one. */
  ghost predicate ComesTo(r: Result<(World, bool)>, ok: bool, any: bool)
  {
    && (r.Ok? <==> ok)
    && (r.Ok? ==> (r.value.1 <==> any))
    && (r.Err? ==> r.error != ReclaimBufferBurnLimitExceeded)
  }

  /** The first entry fails, is skipped, or is closed before the rest runs. */
  lemma FirstEntry(env: Env, w: World, recipient: Address, e: Entry, rest: seq<Entry>, any: bool)
    ensures var r, ok := ReclaimEntries(env, w, recipient, [e] + rest, any), EntryOk(env, w, recipient, e);
      var room := Get(w.lamports, recipient) + Get(w.lamports, e.buffer) <= U64_MAX;
      && (!ok || (Closes(w, e) && !room) ==> ComesTo(r, false, any))
      && (ok && !Closes(w, e) ==> r == ReclaimEntries(env, w, recipient, rest, any))
      && (ok && Closes(w, e) && room ==>
            && BurnAndClose(env, w, e, recipient).Ok?
            && r == ReclaimEntries(env, BurnAndClose(env, w, e, recipient).value, recipient, rest, true))
  {
    var entries := [e] + rest;
    assert entries[0] == e && entries[1..] == rest;
    if CheckEntry(env, w, e).Ok? {
      BurnAndCloseExact(env, w, e, recipient);
    }
  }

  lemma FirstEntryMatters(env: Env, w: World, recipient: Address, e: Entry, rest: seq<Entry>)
    ensures BatchOk(env, w, recipient, [e] + rest) ==> EntryOk(env, w, recipient, e)
    ensures Closes(w, e) ==> AnyCloses(w, [e] + rest)
    ensures Closes(w, e) && BatchOk(env, w, recipient, [e] + rest) ==>
      Get(w.lamports, recipient) + Get(w.lamports, e.buffer) <= U64_MAX
  {
    var entries := [e] + rest;
    assert entries[0] == e && entries[1..] == rest;
  }

  lemma {:induction false} ReclaimEntriesExact(env: Env, w: World, recipient: Address, entries: seq<Entry>, any: bool)
    ensures ComesTo(ReclaimEntries(env, w, recipient, entries, any), BatchOk(env, w, recipient, entries),
                    any || AnyCloses(w, entries))
    decreases |entries|
  {
    if entries != [] {
      var e, rest := entries[0], entries[1..];
      assert entries == [e] + rest;
      FirstEntry(env, w, recipient, e, rest, any);
      FirstEntryMatters(env, w, recipient, e, rest);
      if EntryOk(env, w, recipient, e) {
        if !Closes(w, e) {
          BatchOkSkip(env, w, recipient, e, rest);
          ReclaimEntriesExact(env, w, recipient, rest, any);
        } else if Get(w.lamports, recipient) + Get(w.lamports, e.buffer) <= U64_MAX {
          BurnAndCloseExact(env, w, e, recipient);
          var w' := BurnAndClose(env, w, e, recipient).value;
          BatchOkClose(env, w, recipient, e, rest, w');
          ReclaimEntriesExact(env, w', recipient, rest, true);
        }
      }
    }
  }

  lemma CheckReclaimAuthorityExact(env: Env, w: World, metas: seq<Meta>)
    requires |metas| >= 4
    ensures CheckReclaimAuthority(env, w, metas).Ok? <==> SignsAs(env, w, metas[1], metas[0].key, 65)
    ensures CheckReclaimAuthority(env, w, metas) != Err(ReclaimBufferBurnLimitExceeded)
  {}

  /** On the entries listed by its accounts and data, ReclaimBuffer succeeds exactly when the reclaim
      authority signs, the batch is in order and some buffer is within its limit; it then clears exactly
      the buffers within one of their limits. The burn-limit error means exactly that the authority
      signs and every buffer is in order and over its limit. */
  lemma ReclaimBufferExact(env: Env, w: World, metas: seq<Meta>, body: seq<Byte>, entries: seq<Entry>)
    requires Lists(metas, body, entries) && entries != []
    ensures var r := ProcessReclaimBuffer(env, w, metas, body);
      var batch := SignsAs(env, w, metas[1], metas[0].key, 65) && BatchOk(env, w, metas[2].key, entries);
      && (r.Ok? <==> batch && AnyCloses(w, entries))
      && (r.Ok? ==> Reclaims(w, entries, r.value.world) && r.value.events == [])
      && (r == Err(ReclaimBufferBurnLimitExceeded) <==> batch && !AnyCloses(w, entries))
  {
    ParseEntriesExact(metas, body, entries);
    CheckReclaimAuthorityExact(env, w, metas);
    ReclaimEntriesExact(env, w, metas[2].key, entries, false);
    if ProcessReclaimBuffer(env, w, metas, body).Ok? {
      ReclaimBufferEffect(env, w, metas, body);
    }
  }

  /** Nothing else is accepted, or comes to the burn-limit error. */
  lemma OnlyListsReclaim(env: Env, w: World, metas: seq<Meta>, body: seq<Byte>)
    requires var r := ProcessReclaimBuffer(env, w, metas, body); r.Ok? || r == Err(ReclaimBufferBurnLimitExceeded)
    ensures exists entries :: entries != [] && Lists(metas, body, entries)
  {
    ParseEntriesExact(metas, body, ParseEntries(metas, body).value);
  }
}
