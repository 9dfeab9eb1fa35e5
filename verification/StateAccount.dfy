/** The settlement state account: a header naming each role's holder, followed by the packed,
    sorted list of approved solvers. */
module StateAccounts {
  import opened Basics

  const STATE_DISCRIMINATOR: Byte := 129
  const WIDTH: nat := 32
  const HEADER: nat := 129

  datatype Role = Manager | SolverAuthority | ReclaimAuthority | SettlementOwnedOrderAuthority

  function RoleOffset(role: Role): (o: nat)
    ensures 1 <= o && o + WIDTH <= HEADER
  {
    match role
    case Manager => 1
    case SolverAuthority => 33
    case ReclaimAuthority => 65
    case SettlementOwnedOrderAuthority => 97
  }

  /** The checks of `attach`: a whole header starting with the discriminator. */
  predicate Attachable(data: seq<Byte>)
  {
    |data| >= HEADER && data[0] == STATE_DISCRIMINATOR
  }

  function Authority(data: seq<Byte>, role: Role): (holder: Address)
    requires |data| >= HEADER
  {
    data[RoleOffset(role)..RoleOffset(role) + WIDTH]
  }

  function SetAuthority(data: seq<Byte>, role: Role, holder: Address): (r: seq<Byte>)
    requires |data| >= HEADER
    ensures |r| == |data|
  {
    data[..RoleOffset(role)] + holder + data[RoleOffset(role) + WIDTH..]
  }

  /** The whole solver slots after the header; a trailing partial slot is ignored. */
  function Region(data: seq<Byte>): (solvers: seq<Address>)
    requires |data| >= HEADER
    ensures |solvers| == (|data| - HEADER) / WIDTH
  {
    seq((|data| - HEADER) / WIDTH, i requires 0 <= i < (|data| - HEADER) / WIDTH =>
      data[HEADER + WIDTH * i..HEADER + WIDTH * i + WIDTH])
  }

  // ---------------------------------------------------------------------------------------
  // Binary search
  // ---------------------------------------------------------------------------------------

  datatype Search = Found(index: nat) | Missing(index: nat)

  /** Binary search of `key` in `s[lo..hi]`: where it is, or where it would go. */
  function SearchIn(s: seq<Address>, key: Address, lo: nat, hi: nat): (r: Search)
    requires lo <= hi <= |s|
    ensures lo <= r.index <= hi
    ensures r.Found? ==> r.index < hi && s[r.index] == key
    ensures StrictlySorted(s) && r.Missing? ==>
      && (forall i :: lo <= i < r.index ==> Less(s[i], key))
      && (forall i :: r.index <= i < hi ==> Less(key, s[i]))
    decreases hi - lo
  {
    if lo == hi then Missing(lo) else
    var mid := lo + (hi - lo) / 2;
    if s[mid] == key then Found(mid)
    else if Less(s[mid], key) then
      SortedBelow(s, mid, key);
      SearchIn(s, key, mid + 1, hi)
    else
      SortedAbove(s, mid, key);
      SearchIn(s, key, lo, mid)
  }

  lemma SortedBelow(s: seq<Address>, mid: nat, key: Address)
    requires mid < |s| && Less(s[mid], key)
    ensures StrictlySorted(s) ==> forall i :: 0 <= i <= mid ==> Less(s[i], key)
  {
    if StrictlySorted(s) {
      forall i | 0 <= i < mid ensures Less(s[i], key) {
        LessTransitive(s[i], s[mid], key);
      }
    }
  }

  lemma SortedAbove(s: seq<Address>, mid: nat, key: Address)
    requires mid < |s| && s[mid] != key && !Less(s[mid], key)
    ensures StrictlySorted(s) ==> forall i :: mid <= i < |s| ==> Less(key, s[i])
  {
    LessTotal(s[mid], key);
    if StrictlySorted(s) {
      forall i | mid < i < |s| ensures Less(key, s[i]) {
        LessTransitive(key, s[mid], s[i]);
      }
    }
  }

  function SolverSearch(data: seq<Byte>, solver: Address): (r: Search)
    requires |data| >= HEADER
  {
    SearchIn(Region(data), solver, 0, |Region(data)|)
  }

  predicate IsSolver(data: seq<Byte>, solver: Address)
    requires |data| >= HEADER
  {
    SolverSearch(data, solver).Found?
  }

  // ---------------------------------------------------------------------------------------
  // The list refines a set
  // ---------------------------------------------------------------------------------------

  /** What every reachable state account satisfies: whole slots, strictly sorted. */
  ghost predicate WellFormed(data: seq<Byte>)
  {
    && Attachable(data)
    && (|data| - HEADER) % WIDTH == 0
    && StrictlySorted(Region(data))
  }

  ghost function SolverSet(data: seq<Byte>): (s: set<Address>)
    requires |data| >= HEADER
  {
    set a | a in Region(data)
  }

  lemma SearchIsMembership(s: seq<Address>, key: Address)
    requires StrictlySorted(s)
    ensures SearchIn(s, key, 0, |s|).Found? <==> key in s
  {
    LessIrreflexive(key);
  }

  /** On a well-formed account, binary search decides membership in the abstract set. */
  lemma IsSolverIsMembership(data: seq<Byte>, solver: Address)
    requires WellFormed(data)
    ensures IsSolver(data, solver) <==> solver in SolverSet(data)
  {
    SearchIsMembership(Region(data), solver);
  }

  // ---------------------------------------------------------------------------------------
  // Insertion and removal on the bytes
  // ---------------------------------------------------------------------------------------

  /** Insert into an account already grown by one slot. */
  function InsertSolver(data: seq<Byte>, solver: Address): (r: Result<seq<Byte>>)
    requires |data| >= HEADER + WIDTH
    ensures r.Ok? ==> |r.value| == |data|
  {
    var occupied := Region(data)[..|Region(data)| - 1];
    var found := SearchIn(occupied, solver, 0, |occupied|);
    if found.Found? then Err(SolverAlreadyExists) else
    var gap := HEADER + found.index * WIDTH;
    var shifted := CopyWithin(data, gap, |data| - WIDTH, gap + WIDTH);
    Ok(shifted[..gap] + solver + shifted[gap + WIDTH..])
  }

  /** Remove and report the length to shrink to; the stale trailing slot is left in place. */
  function RemoveSolver(data: seq<Byte>, solver: Address): (r: Result<(seq<Byte>, nat)>)
    requires |data| >= HEADER
    ensures r.Ok? ==> |r.value.0| == |data| && r.value.1 + WIDTH == |data|
  {
    var found := SolverSearch(data, solver);
    if found.Missing? then Err(SolverNotFound) else
    var offset := HEADER + found.index * WIDTH;
    Ok((CopyWithin(data, offset + WIDTH, |data|, offset), |data| - WIDTH))
  }

  const EMPTY_SLOT: seq<Byte> :=
    [0, 0, 0, 0, 0, 0, 0, 0, 0, 0, 0, 0, 0, 0, 0, 0, 0, 0, 0, 0, 0, 0, 0, 0, 0, 0, 0, 0, 0, 0, 0, 0]

  /** Grow by one slot, then insert. */
  function Added(data: seq<Byte>, solver: Address): (r: Result<seq<Byte>>)
    requires |data| >= HEADER
    ensures r.Ok? ==> |r.value| == |data| + WIDTH
  {
    InsertSolver(data + EMPTY_SLOT, solver)
  }

  /** Remove, then shrink by one slot. */
  function Removed(data: seq<Byte>, solver: Address): (r: Result<seq<Byte>>)
    requires |data| >= HEADER
  {
    var shifted :- RemoveSolver(data, solver);
    Ok(shifted.0[..shifted.1])
  }

  lemma GrownRegion(data: seq<Byte>)
    requires |data| >= HEADER && (|data| - HEADER) % WIDTH == 0
    ensures var grown := Region(data + EMPTY_SLOT);
      |grown| == |Region(data)| + 1 && grown[..|grown| - 1] == Region(data)
  {
    var bytes := data + EMPTY_SLOT;
    forall i | 0 <= i < |Region(data)| ensures Region(bytes)[i] == Region(data)[i] {
      assert bytes[HEADER + WIDTH * i..HEADER + WIDTH * i + WIDTH]
          == data[HEADER + WIDTH * i..HEADER + WIDTH * i + WIDTH];
    }
  }

  /** Splicing one slot into the bytes splices one address into the list. */
  lemma SpliceIn(data: seq<Byte>, solver: Address, index: nat, r: seq<Byte>)
    requires |data| >= HEADER && (|data| - HEADER) % WIDTH == 0 && index <= |Region(data)|
    requires r == data[..HEADER + index * WIDTH] + solver + data[HEADER + index * WIDTH..]
    ensures Region(r) == Region(data)[..index] + [solver] + Region(data)[index..]
    ensures r[..HEADER] == data[..HEADER]
  {
    var gap := HEADER + index * WIDTH;
    assert |data[..gap]| == gap;
    var list := Region(data)[..index] + [solver] + Region(data)[index..];
    forall j | 0 <= j < |list| ensures Region(r)[j] == list[j] {
      var at := HEADER + WIDTH * j;
      if j < index {
        assert r[at..at + WIDTH] == data[at..at + WIDTH];
      } else if j == index {
        assert r[at..at + WIDTH] == solver;
      } else {
        assert r[at..at + WIDTH] == data[at - WIDTH..at];
        assert at - WIDTH == HEADER + WIDTH * (j - 1);
      }
    }
  }

  /** Cutting one slot out of the bytes cuts one address out of the list. */
  lemma SpliceOut(data: seq<Byte>, index: nat, r: seq<Byte>)
    requires |data| >= HEADER && (|data| - HEADER) % WIDTH == 0 && index < |Region(data)|
    requires r == data[..HEADER + index * WIDTH] + data[HEADER + index * WIDTH + WIDTH..]
    ensures Region(r) == Region(data)[..index] + Region(data)[index + 1..]
    ensures r[..HEADER] == data[..HEADER]
  {
    var list := Region(data)[..index] + Region(data)[index + 1..];
    forall j | 0 <= j < |list| ensures Region(r)[j] == list[j] {
      var at := HEADER + WIDTH * j;
      if j < index {
        assert r[at..at + WIDTH] == data[at..at + WIDTH];
      } else {
        assert r[at..at + WIDTH] == data[at + WIDTH..at + 2 * WIDTH];
        assert at + WIDTH == HEADER + WIDTH * (j + 1);
      }
    }
  }

  /** Growing and inserting, on the bytes, is splicing the solver in at its sorted place. */
  lemma AddedBytes(data: seq<Byte>, solver: Address)
    requires |data| >= HEADER && (|data| - HEADER) % WIDTH == 0
    ensures Added(data, solver) == match SolverSearch(data, solver)
      case Found(_) => Err(SolverAlreadyExists)
      case Missing(index) =>
        Ok(data[..HEADER + index * WIDTH] + solver + data[HEADER + index * WIDTH..])
  {
    var grown := data + EMPTY_SLOT;
    GrownRegion(data);
    var found := SolverSearch(data, solver);
    if found.Missing? {
      var gap := HEADER + found.index * WIDTH;
      var shifted := CopyWithin(grown, gap, |grown| - WIDTH, gap + WIDTH);
      assert shifted[..gap] == data[..gap];
      assert shifted[gap + WIDTH..] == data[gap..];
    }
  }

  /** Removing and shrinking, on the bytes, is cutting the solver's slot out. */
  lemma RemovedBytes(data: seq<Byte>, solver: Address)
    requires |data| >= HEADER && (|data| - HEADER) % WIDTH == 0
    ensures Removed(data, solver) == match SolverSearch(data, solver)
      case Missing(_) => Err(SolverNotFound)
      case Found(index) =>
        Ok(data[..HEADER + index * WIDTH] + data[HEADER + index * WIDTH + WIDTH..])
  {
    var found := SolverSearch(data, solver);
    if found.Found? {
      var offset := HEADER + found.index * WIDTH;
      var shifted := CopyWithin(data, offset + WIDTH, |data|, offset);
      assert shifted[..|data| - WIDTH] == data[..offset] + data[offset + WIDTH..];
    }
  }

  lemma SortedInsert(list: seq<Address>, x: Address, index: nat)
    requires StrictlySorted(list) && index <= |list|
    requires forall i :: 0 <= i < index ==> Less(list[i], x)
    requires forall i :: index <= i < |list| ==> Less(x, list[i])
    ensures var r := list[..index] + [x] + list[index..];
      StrictlySorted(r) && forall a :: a in r <==> a in list || a == x
  {
    assert list == list[..index] + list[index..];
  }

  lemma SortedDelete(list: seq<Address>, index: nat)
    requires StrictlySorted(list) && index < |list|
    ensures var r := list[..index] + list[index + 1..];
      StrictlySorted(r) && forall a :: a in r <==> a in list && a != list[index]
  {
    var r := list[..index] + list[index + 1..];
    LessIrreflexive(list[index]);
    assert list == list[..index] + [list[index]] + list[index + 1..];
    assert forall i :: 0 <= i < index ==> list[i] != list[index];
    assert forall i :: index < i < |list| ==> list[i] != list[index];
    assert forall k :: 0 <= k < |r| ==> r[k] == list[if k < index then k else k + 1];
  }

  /** AddSolver on the bytes: it fails exactly on a stored solver, otherwise it adds exactly
      that solver, keeps the list sorted and whole, and leaves the header alone. */
  lemma AddedRefinesUnion(data: seq<Byte>, solver: Address)
    requires WellFormed(data)
    ensures Added(data, solver).Err? <==> solver in SolverSet(data)
    ensures Added(data, solver).Err? ==> Added(data, solver).error == SolverAlreadyExists
    ensures Added(data, solver).Ok? ==>
      var r := Added(data, solver).value;
      && WellFormed(r)
      && |r| == |data| + WIDTH
      && SolverSet(r) == SolverSet(data) + {solver}
      && r[..HEADER] == data[..HEADER]
  {
    AddedBytes(data, solver);
    IsSolverIsMembership(data, solver);
    var found := SolverSearch(data, solver);
    if found.Missing? {
      var r := Added(data, solver).value;
      SpliceIn(data, solver, found.index, r);
      SortedInsert(Region(data), solver, found.index);
      assert r[0] == r[..HEADER][0] == data[..HEADER][0];
    }
  }

  /** RemoveSolver on the bytes: it fails exactly on an absent solver, otherwise it removes
      exactly that solver, keeps the list sorted and whole, and leaves the header alone. */
  lemma RemovedRefinesDifference(data: seq<Byte>, solver: Address)
    requires WellFormed(data)
    ensures Removed(data, solver).Err? <==> solver !in SolverSet(data)
    ensures Removed(data, solver).Err? ==> Removed(data, solver).error == SolverNotFound
    ensures Removed(data, solver).Ok? ==>
      var r := Removed(data, solver).value;
      && WellFormed(r)
      && |r| + WIDTH == |data|
      && SolverSet(r) == SolverSet(data) - {solver}
      && r[..HEADER] == data[..HEADER]
  {
    RemovedBytes(data, solver);
    IsSolverIsMembership(data, solver);
    var found := SolverSearch(data, solver);
    if found.Found? {
      var r := Removed(data, solver).value;
      SpliceOut(data, found.index, r);
      SortedDelete(Region(data), found.index);
      assert r[0] == r[..HEADER][0] == data[..HEADER][0];
    }
  }

  /** Rewriting one slot keeps every range that does not meet it. */
  lemma RewriteKeeps(data: seq<Byte>, slot: nat, holder: Address, from: nat, to: nat)
    requires slot + WIDTH <= |data| && from <= to <= |data| && (to <= slot || slot + WIDTH <= from)
    ensures (data[..slot] + holder + data[slot + WIDTH..])[from..to] == data[from..to]
  {
    var r := data[..slot] + holder + data[slot + WIDTH..];
    if to <= slot {
      assert r[from..to] == data[..slot][from..to];
    } else {
      assert r[from..to] == data[slot + WIDTH..][from - slot - WIDTH..to - slot - WIDTH];
    }
  }

  /** A role change alters exactly that role, and nothing of the solver list. */
  lemma SetAuthorityFrame(data: seq<Byte>, role: Role, holder: Address)
    requires WellFormed(data)
    ensures var r := SetAuthority(data, role, holder);
      && WellFormed(r)
      && Region(r) == Region(data)
      && forall other: Role :: Authority(r, other) == if other == role then holder else Authority(data, other)
  {
    var r := SetAuthority(data, role, holder);
    var slot := RoleOffset(role);
    forall i | 0 <= i < |Region(data)| ensures Region(r)[i] == Region(data)[i] {
      RewriteKeeps(data, slot, holder, HEADER + WIDTH * i, HEADER + WIDTH * i + WIDTH);
    }
    assert Region(r) == Region(data);
    forall other: Role
      ensures Authority(r, other) == if other == role then holder else Authority(data, other)
    {
      var o := RoleOffset(other);
      if other == role {
        assert r[o..o + WIDTH] == holder;
      } else {
        assert o + WIDTH <= slot || slot + WIDTH <= o;
        RewriteKeeps(data, slot, holder, o, o + WIDTH);
      }
    }
  }

  /** Equal headers name equal holders. */
  lemma HeaderNamesRoles(x: seq<Byte>, y: seq<Byte>, role: Role)
    requires |x| >= HEADER && |y| >= HEADER && x[..HEADER] == y[..HEADER]
    ensures Authority(x, role) == Authority(y, role)
  {
    var o := RoleOffset(role);
    assert x[..HEADER][o..o + WIDTH] == x[o..o + WIDTH];
    assert y[..HEADER][o..o + WIDTH] == y[o..o + WIDTH];
  }

  // ---------------------------------------------------------------------------------------
  // The accessor, updating the account's bytes in place
  // ---------------------------------------------------------------------------------------

  class StateAccount {
    var data: array<Byte>

    ghost predicate Valid()
      reads this, data
    {
      Attachable(data[..])
    }

    constructor Attach(bytes: seq<Byte>)
      requires Attachable(bytes)
      ensures Valid() && fresh(data) && data[..] == bytes
    {
      data := new Byte[|bytes|](i requires 0 <= i < |bytes| => bytes[i]);
      new;
      assert data[..] == bytes;
    }

    method HolderOf(role: Role) returns (holder: Address)
      requires Valid()
      ensures holder == Authority(data[..], role)
    {
      var o := RoleOffset(role);
      holder := data[o..o + WIDTH];
      assert data[o..o + WIDTH] == data[..][o..o + WIDTH];
    }

    /** Binary search over the stored list. */
    method HoldsSolver(solver: Address) returns (found: bool)
      requires Valid()
      ensures found == IsSolver(data[..], solver)
    {
      found := SolverSearch(data[..], solver).Found?;
    }

    /** Write a role's slot; every other byte keeps its value. */
    method SetHolder(role: Role, holder: Address)
      requires Valid()
      modifies data
      ensures Valid()
      ensures data[..] == SetAuthority(old(data[..]), role, holder)
    {
      WriteSlot(data, RoleOffset(role), holder);
    }

    /** Reallocate to `length`, zero-filling what is new. */
    method Resize(length: nat)
      requires Valid() && length >= HEADER
      modifies this
      ensures Valid() && fresh(data) && data.Length == length
      ensures length <= old(data.Length) ==> data[..] == old(data[..length])
      ensures length == old(data.Length) + WIDTH ==> data[..] == old(data[..]) + EMPTY_SLOT
    {
      var source := data[..];
      data := new Byte[length](i requires 0 <= i < length => if i < |source| then source[i] else 0);
      assert length <= |source| ==> data[..] == source[..length];
      assert length == |source| + WIDTH ==> data[..] == source + EMPTY_SLOT;
    }

    /** Shift the tail into the spare slot and write the solver into the gap. */
    method Insert(solver: Address) returns (r: Result<()>)
      requires Valid() && data.Length >= HEADER + WIDTH
      modifies data
      ensures Valid()
      ensures match InsertSolver(old(data[..]), solver)
        case Ok(bytes) => r.Ok? && data[..] == bytes
        case Err(e) => r == Err(e) && data[..] == old(data[..])
    {
      var occupied := Region(data[..])[..|Region(data[..])| - 1];
      var found := SearchIn(occupied, solver, 0, |occupied|);
      if found.Found? {
        return Err(SolverAlreadyExists);
      }
      OpenGap(HEADER + found.index * WIDTH, solver);
      return Ok(());
    }

    /** Shift everything from `gap` up by one slot, over the spare one, and fill the gap. */
    method OpenGap(gap: nat, solver: Address)
      requires Valid() && HEADER <= gap && gap + WIDTH <= data.Length
      modifies data
      ensures Valid()
      ensures var shifted := CopyWithin(old(data[..]), gap, |old(data[..])| - WIDTH, gap + WIDTH);
        data[..] == shifted[..gap] + solver + shifted[gap + WIDTH..]
    {
      MoveBytes(data, gap, data.Length - WIDTH, gap + WIDTH);
      WriteSlot(data, gap, solver);
    }

    /** Shift the entries after the removed one down; the caller shrinks the account. */
    method Remove(solver: Address) returns (r: Result<nat>)
      requires Valid()
      modifies data
      ensures Valid()
      ensures match RemoveSolver(old(data[..]), solver)
        case Ok(shifted) => r == Ok(shifted.1) && data[..] == shifted.0
        case Err(e) => r == Err(e) && data[..] == old(data[..])
    {
      var found := SolverSearch(data[..], solver);
      if found.Missing? {
        return Err(SolverNotFound);
      }
      var offset := HEADER + found.index * WIDTH;
      var length := data.Length;
      MoveBytes(data, offset + WIDTH, length, offset);
      return Ok(length - WIDTH);
    }
  }
}
