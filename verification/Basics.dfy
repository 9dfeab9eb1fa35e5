/** Bytes, addresses, machine integers and results: the vocabulary shared by every module. */
module Basics {

  type Byte = b: int | 0 <= b < 256

  /** An account address: 32 bytes, compared lexicographically. */
  type Address = a: seq<Byte> | |a| == 32 witness seq(32, _ => 0)

  const U64_MAX: nat := 0xFFFF_FFFF_FFFF_FFFF

  type U64 = n: int | 0 <= n <= U64_MAX

  type U32 = n: int | 0 <= n < 0x1_0000_0000

  datatype Option<+T> = None | Some(value: T)

  datatype Result<+T> = Ok(value: T) | Err(error: Error) {
    predicate IsFailure() { Err? }

    function PropagateFailure<U>(): (r: Result<U>)
      requires Err?
    {
      Err(error)
    }

    function Extract(): T
      requires Ok?
    {
      value
    }
  }

  /** The program errors surfaced by the handlers, followed by the failures of the programs
      they invoke and of the runtime itself. */
  datatype Error =
    | InvalidInstructionData
    | InvalidAccountData
    | AccountDataTooSmall
    | NotEnoughAccountKeys
    | MissingRequiredSignature
    | AccountAlreadyInitialized
    | UninitializedAccount
    | ArithmeticOverflow
    | AccountNotRentExempt
    | FinalizeBeforeInitialize
    | BeginFinalizePairOverlap
    | MissingCounterpartInstruction
    | CounterpartIsExternal
    | InvalidCounterpartDiscriminator
    | InvalidCounterpartCounterpart
    | MismatchedCounterpartDiscriminator
    | OwnerMismatch
    | AccountNotDerivable
    | OrdersNotStrictlyIncreasing
    | SellTokenAccountMismatch
    | SellTokenAccountInvalid
    | SellTokenOwnerMismatch
    | AccountCountNotMatchingOrderCount
    | CalledViaCpi
    | OrderCancelled
    | OrderExpired
    | TransferCountMismatch
    | StateAccountMismatch
    | AccountCountNotMatchingPushCount
    | SettledOrderPushCountMismatch
    | PushDestinationMismatch
    | PushSourceNotBuffer
    | SellMintMismatch
    | LimitPriceViolated
    | PullAmountOverflow
    | FillExceedsOrderAmount
    | OrderNotExactlyFilled
    | AmountWithdrawnOverflow
    | AmountReceivedOverflow
    | OrderNotReclaimable
    | ReclaimRecipientMismatch
    | ReclaimAuthorityMismatch
    | ReclaimBufferNotCanonical
    | UnauthorizedAuthorityTransfer
    | UnauthorizedSolverManagement
    | SolverAlreadyExists
    | UnauthorizedSolver
    | SolverNotFound
    | InvalidTokenProgram
    | UnauthorizedSettlementOwnedOrder
    | ZeroOrderAmount
    | InvalidMint
    | PushSourceIsDestination
    | NativeSolBufferEmptied
    | ReclaimBufferBurnLimitExceeded
    | UnauthorizedNativeSolWithdrawal
    | NativeSolBufferMismatch
    | UnsupportedSysvar
    | TokenProgramFailure
    | SystemProgramFailure
    | IllegalForeignWrite
    | NativeSolHasNoMint
    | TallyOverflow
    | NotSelfFunding

  datatype TokenProgram = SplToken | Token2022

  function Min(x: int, y: int): int { if x <= y then x else y }

  // ---------------------------------------------------------------------------------------
  // Little-endian integers
  // ---------------------------------------------------------------------------------------

  /** The number of values `n` bytes can take. */
  function Pow256(n: nat): (p: nat)
    ensures p > 0
  {
    if n == 0 then 1 else 256 * Pow256(n - 1)
  }

  lemma WordSizes()
    ensures Pow256(2) == 0x1_0000
    ensures Pow256(4) == 0x1_0000_0000
    ensures Pow256(8) == U64_MAX + 1
  {
    assert Pow256(1) == 256;
    assert Pow256(3) == 0x100_0000;
    assert Pow256(5) == 0x100_0000_0000;
    assert Pow256(6) == 0x1_0000_0000_0000;
    assert Pow256(7) == 0x100_0000_0000_0000;
  }

  function LeValue(s: seq<Byte>): (v: nat)
  {
    if s == [] then 0 else s[0] + 256 * LeValue(s[1..])
  }

  function LeBytes(v: nat, n: nat): (s: seq<Byte>)
    ensures |s| == n
  {
    if n == 0 then [] else [v % 256] + LeBytes(v / 256, n - 1)
  }

  lemma {:induction false} LeValueBound(s: seq<Byte>)
    ensures LeValue(s) < Pow256(|s|)
  {
    if s != [] {
      LeValueBound(s[1..]);
    }
  }

  /** Writing a value that fits and reading it back gives the value. */
  lemma {:induction false} LeRoundTrip(v: nat, n: nat)
    requires v < Pow256(n)
    ensures LeValue(LeBytes(v, n)) == v
  {
    if n > 0 {
      LeRoundTrip(v / 256, n - 1);
      assert LeBytes(v, n)[1..] == LeBytes(v / 256, n - 1);
    }
  }

  /** Reading bytes and writing the value back gives the bytes: little-endian is canonical. */
  lemma {:induction false} LeCanonical(s: seq<Byte>)
    ensures LeBytes(LeValue(s), |s|) == s
  {
    if s != [] {
      LeCanonical(s[1..]);
      assert s == [s[0]] + s[1..];
    }
  }

  function U64OfBytes(s: seq<Byte>): (v: U64)
    requires |s| == 8
  {
    LeValueBound(s);
    WordSizes();
    LeValue(s)
  }

  function U64ToBytes(v: U64): (s: seq<Byte>)
    ensures |s| == 8
  {
    LeBytes(v, 8)
  }

  /** The eight bytes of a `u64`, least significant first. */
  lemma U64IsLittleEndian(s: seq<Byte>)
    requires |s| == 8
    ensures U64OfBytes(s) == (s[0] as int) + 0x100 * (s[1] as int) + 0x1_0000 * (s[2] as int) + 0x100_0000 * (s[3] as int)
      + 0x1_0000_0000 * (s[4] as int) + 0x100_0000_0000 * (s[5] as int) + 0x1_0000_0000_0000 * (s[6] as int)
      + 0x100_0000_0000_0000 * (s[7] as int)
  {
    LeStep(s, 0);
    LeStep(s, 1);
    LeStep(s, 2);
    LeStep(s, 3);
    LeStep(s, 4);
    LeStep(s, 5);
    LeStep(s, 6);
    LeStep(s, 7);
    assert s[8..] == [];
  }

  lemma LeStep(s: seq<Byte>, i: nat)
    requires i < |s|
    ensures LeValue(s[i..]) == s[i] + 256 * LeValue(s[i + 1..])
  {
    assert s[i..][1..] == s[i + 1..];
  }

  lemma U64RoundTrip(v: U64)
    ensures U64OfBytes(U64ToBytes(v)) == v
  {
    WordSizes();
    LeRoundTrip(v, 8);
  }

  lemma U64Canonical(s: seq<Byte>)
    requires |s| == 8
    ensures U64ToBytes(U64OfBytes(s)) == s
  {
    LeCanonical(s);
  }

  // ---------------------------------------------------------------------------------------
  // Packed arrays of u64
  // ---------------------------------------------------------------------------------------

  /** The whole 8-byte chunks of `bytes`, each read as a little-endian `u64`. */
  function U64Chunks(bytes: seq<Byte>): (values: seq<U64>)
    ensures |values| == |bytes| / 8
  {
    seq(|bytes| / 8, i requires 0 <= i < |bytes| / 8 => U64OfBytes(bytes[8 * i..8 * i + 8]))
  }

  function PackU64s(values: seq<U64>): (bytes: seq<Byte>)
    ensures |bytes| == 8 * |values|
  {
    if values == [] then [] else U64ToBytes(values[0]) + PackU64s(values[1..])
  }

  lemma {:induction false} PackAppend(x: seq<U64>, y: seq<U64>)
    ensures PackU64s(x + y) == PackU64s(x) + PackU64s(y)
  {
    if x == [] {
      assert x + y == y;
    } else {
      assert (x + y)[0] == x[0] && (x + y)[1..] == x[1..] + y;
      PackAppend(x[1..], y);
    }
  }

  lemma {:induction false} PackedChunk(values: seq<U64>, i: nat)
    requires i < |values|
    ensures PackU64s(values)[8 * i..8 * i + 8] == U64ToBytes(values[i])
  {
    var head := U64ToBytes(values[0]);
    var tail := PackU64s(values[1..]);
    if i > 0 {
      PackedChunk(values[1..], i - 1);
      assert (head + tail)[8 * i..8 * i + 8] == tail[8 * (i - 1)..8 * (i - 1) + 8];
    }
  }

  lemma PackRoundTrip(values: seq<U64>)
    ensures U64Chunks(PackU64s(values)) == values
  {
    forall i | 0 <= i < |values| ensures U64Chunks(PackU64s(values))[i] == values[i] {
      PackedChunk(values, i);
      U64RoundTrip(values[i]);
    }
  }

  // ---------------------------------------------------------------------------------------
  // Lexicographic order on equal-length byte strings
  // ---------------------------------------------------------------------------------------

  predicate Less(a: seq<Byte>, b: seq<Byte>)
    requires |a| == |b|
  {
    a != [] && (a[0] < b[0] || (a[0] == b[0] && Less(a[1..], b[1..])))
  }

  /** The order of byte strings: smaller at the first place where they differ. */
  lemma {:induction false} LessIsLexicographic(a: seq<Byte>, b: seq<Byte>)
    requires |a| == |b|
    ensures Less(a, b) <==> exists i :: 0 <= i < |a| && a[..i] == b[..i] && a[i] < b[i]
  {
    if a != [] {
      LessIsLexicographic(a[1..], b[1..]);
      if a[0] < b[0] {
        assert a[..0] == b[..0];
      }
      if i :| 0 <= i < |a[1..]| && a[1..][..i] == b[1..][..i] && a[1..][i] < b[1..][i] {
        if a[0] == b[0] {
          assert a[..i + 1] == [a[0]] + a[1..][..i] && b[..i + 1] == [b[0]] + b[1..][..i];
          assert a[i + 1] < b[i + 1];
        }
      }
      if i :| 0 <= i < |a| && a[..i] == b[..i] && a[i] < b[i] {
        if i > 0 {
          assert a[0] == a[..i][0] == b[0];
          assert a[1..][..i - 1] == a[..i][1..] == b[1..][..i - 1];
          assert a[1..][i - 1] < b[1..][i - 1];
        }
      }
    }
  }

  lemma {:induction false} LessIrreflexive(a: seq<Byte>)
    ensures !Less(a, a)
  {
    if a != [] {
      LessIrreflexive(a[1..]);
    }
  }

  lemma {:induction false} LessTransitive(a: seq<Byte>, b: seq<Byte>, c: seq<Byte>)
    requires |a| == |b| == |c|
    requires Less(a, b) && Less(b, c)
    ensures Less(a, c)
  {
    if a[0] == b[0] == c[0] {
      LessTransitive(a[1..], b[1..], c[1..]);
    }
  }

  lemma {:induction false} LessTotal(a: seq<Byte>, b: seq<Byte>)
    requires |a| == |b|
    ensures Less(a, b) || a == b || Less(b, a)
  {
    if a != [] && a[0] == b[0] {
      LessTotal(a[1..], b[1..]);
      assert a == [a[0]] + a[1..] && b == [b[0]] + b[1..];
    }
  }

  lemma LessAsymmetric(a: seq<Byte>, b: seq<Byte>)
    requires |a| == |b|
    requires Less(a, b)
    ensures a != b && !Less(b, a)
  {
    LessIrreflexive(a);
    if Less(b, a) {
      LessTransitive(a, b, a);
    }
  }

  ghost predicate StrictlySorted(s: seq<Address>)
  {
    forall i, j :: 0 <= i < j < |s| ==> Less(s[i], s[j])
  }

  // ---------------------------------------------------------------------------------------
  // Balances: finite maps with a default of zero, and their totals
  // ---------------------------------------------------------------------------------------

  function Get(m: map<Address, nat>, k: Address): (v: nat)
  {
    if k in m then m[k] else 0
  }

  ghost function Total(m: map<Address, nat>): (t: nat)
  {
    if m.Keys == {} then 0 else
      var k :| k in m;
      m[k] + Total(m - {k})
  }

  lemma {:induction false} TotalWithout(m: map<Address, nat>, k: Address)
    requires k in m
    ensures Total(m) == m[k] + Total(m - {k})
    decreases |m|
  {
    var j :| j in m && Total(m) == m[j] + Total(m - {j});
    if j != k {
      TotalWithout(m - {j}, k);
      TotalWithout(m - {k}, j);
      assert m - {j} - {k} == m - {k} - {j};
    }
  }

  /** Overwriting one entry changes the total by exactly the change of that entry. */
  lemma TotalUpdate(m: map<Address, nat>, k: Address, v: nat)
    ensures Total(m[k := v]) == Total(m) - Get(m, k) + v
  {
    TotalWithout(m[k := v], k);
    assert m[k := v] - {k} == m - {k};
    if k in m {
      TotalWithout(m, k);
    } else {
      assert m - {k} == m;
    }
  }

  function Sum(s: seq<nat>): (t: nat)
  {
    if s == [] then 0 else s[0] + Sum(s[1..])
  }

  lemma {:induction false} SumAppend(x: seq<nat>, y: seq<nat>)
    ensures Sum(x + y) == Sum(x) + Sum(y)
  {
    if x == [] {
      assert x + y == y;
    } else {
      assert (x + y)[1..] == x[1..] + y;
      SumAppend(x[1..], y);
    }
  }

  function Flatten<T>(groups: seq<seq<T>>): (s: seq<T>)
  {
    if groups == [] then [] else groups[0] + Flatten(groups[1..])
  }

  // ---------------------------------------------------------------------------------------
  // In-place byte moves
  // ---------------------------------------------------------------------------------------

  /** Overwrite the bytes starting at `offset`, and no others. */
  method WriteSlot(out: array<Byte>, offset: nat, slot: seq<Byte>)
    requires offset + |slot| <= out.Length
    modifies out
    ensures out[..] == old(out[..offset]) + slot + old(out[offset + |slot|..])
  {
    ghost var before := out[..];
    forall k | 0 <= k < |slot| {
      out[offset + k] := slot[k];
    }
    assert out[..] == before[..offset] + slot + before[offset + |slot|..];
  }

  /** `copy_within`: the bytes `s[from..to]` copied over those starting at `dest`. */
  function CopyWithin(s: seq<Byte>, from: nat, to: nat, dest: nat): (r: seq<Byte>)
    requires from <= to <= |s| && dest + (to - from) <= |s|
    ensures |r| == |s|
  {
    s[..dest] + s[from..to] + s[dest + (to - from)..]
  }

  method MoveBytes(a: array<Byte>, from: nat, to: nat, dest: nat)
    requires from <= to <= a.Length && dest + (to - from) <= a.Length
    modifies a
    ensures a[..] == CopyWithin(old(a[..]), from, to, dest)
  {
    ghost var before := a[..];
    forall k | 0 <= k < to - from {
      a[dest + k] := a[from + k];
    }
    assert a[..] == CopyWithin(before, from, to, dest);
  }
}
