/** Packet identifiers: sixteen bits off a 32-bit counter, with a table of those in use. */
module IdGenerator {
  import opened Bytes

  const MAX_UINT16 := 65535
  const UINT32_SIZE := 0x1_0000_0000

  datatype State<T> = State(nextID: u32, used: map<u16, T>)

  const UINT16_SIZE := 0x1_0000

  /** Number of identifiers in a row that are in use, from `ToU16(n)` on, up to `limit`. */
  function InUse<T>(used: map<u16, T>, n: nat, limit: nat): (k: nat)
    ensures k <= limit
    ensures forall i :: n <= i < n + k ==> ToU16(i) in used
    ensures k < limit ==> ToU16(n + k) !in used
    decreases limit
  {
    if limit == 0 || ToU16(n) !in used then 0 else 1 + InUse(used, n + 1, limit - 1)
  }

  /** The counter value the search starts from; identifier 0 is skipped by starting over at 1. */
  function Candidate(nextID: u32): (c: u32)
    ensures ToU16(c) != 0
  {
    var n := Plus(nextID, 1);
    if ToU16(n) == 0 then 1 else n
  }

  /** One allocation. When the candidate is in use, the search goes on to the first identifier
      that is not, but hands out the one after it; it gives up with 0 after a full round. */
  function Next<T>(s: State<T>, extra: T): (u16, State<T>) {
    var c := Candidate(s.nextID);
    var k := InUse(s.used, c, MAX_UINT16);
    if k == 0 then (ToU16(c), State(c, s.used[ToU16(c) := extra]))
    else if k == MAX_UINT16 then (0, s.(nextID := Plus(c, k)))
    else
      var n := Plus(c, k + 1);
      var id := ToU16(n);
      (id, State(n, if id > 0 then s.used[id := extra] else s.used))
  }

  function Free<T>(s: State<T>, id: u16): State<T> {
    s.(used := s.used - {id})
  }

  /** `n + k` on the 32-bit counter. */
  function Plus(n: u32, k: nat): u32 {
    (n + k) % UINT32_SIZE
  }

  lemma PlusOne(n: u32, k: nat)
    ensures Plus(Plus(n, k), 1) == Plus(n, k + 1)
    ensures ToU16(Plus(n, k)) == ToU16(n + k)
    ensures Plus(n, 0) == n
  {
    Wraps(n + k);
  }

  lemma Wraps(n: nat)
    ensures ToU16(n % UINT32_SIZE) == ToU16(n)
  {
    assert n == UINT32_SIZE * (n / UINT32_SIZE) + n % UINT32_SIZE;
  }

  lemma {:induction false} InUseAt<T>(used: map<u16, T>, n: nat, limit: nat, k: nat)
    requires k <= limit
    requires forall i :: n <= i < n + k ==> ToU16(i) in used
    requires k < limit ==> ToU16(n + k) !in used
    ensures InUse(used, n, limit) == k
    decreases limit
  {
    if k > 0 {
      InUseAt(used, n + 1, limit - 1, k - 1);
    }
  }

  lemma SmallId()
    ensures ToU16(1) == 1
  {
  }

  lemma CandidateIs(nextID: u32)
    ensures Candidate(nextID) == if ToU16(Plus(nextID, 1)) == 0 then 1 else Plus(nextID, 1)
  {
  }

  // The three ways an allocation ends.

  lemma NextTakes<T>(s: State<T>, extra: T)
    requires ToU16(Candidate(s.nextID)) !in s.used
    ensures var c := Candidate(s.nextID);
      Next(s, extra) == (ToU16(c), State(c, s.used[ToU16(c) := extra]))
  {
    InUseAt(s.used, Candidate(s.nextID), MAX_UINT16, 0);
  }

  lemma NextFails<T>(s: State<T>, extra: T)
    requires var c := Candidate(s.nextID); forall j :: c <= j < c + MAX_UINT16 ==> ToU16(j) in s.used
    ensures Next(s, extra) == (0, s.(nextID := Plus(Candidate(s.nextID), MAX_UINT16)))
  {
    InUseAt(s.used, Candidate(s.nextID), MAX_UINT16, MAX_UINT16);
  }

  lemma NextSkips<T>(s: State<T>, extra: T, k: nat)
    requires 0 < k < MAX_UINT16
    requires var c := Candidate(s.nextID);
      (forall j :: c <= j < c + k ==> ToU16(j) in s.used) && ToU16(c + k) !in s.used
    ensures var n := Plus(Candidate(s.nextID), k + 1);
      Next(s, extra) == (ToU16(n), State(n, if ToU16(n) > 0 then s.used[ToU16(n) := extra] else s.used))
  {
    InUseAt(s.used, Candidate(s.nextID), MAX_UINT16, k);
  }

  class IdGenerator<T> {
    var nextID: u32
    var usedIDs: map<u16, T>

    ghost function View(): State<T>
      reads this
    {
      State(nextID, usedIDs)
    }

    constructor ()
      ensures View() == State(0, map[])
    {
      nextID := 0;
      usedIDs := map[];
    }

    method Used(id: u16) returns (loaded: bool)
      ensures loaded <==> id in usedIDs
    {
      loaded := id in usedIDs;
    }

    method SetUsed(id: u16, data: T)
      modifies this
      ensures usedIDs == old(usedIDs)[id := data] && nextID == old(nextID)
    {
      usedIDs := usedIDs[id := data];
    }

    method Allocate(extra: T) returns (id: u16)
      modifies this
      ensures (id, View()) == Next(old(View()), extra)
    {
      hide ToU16, Plus, InUse, Next, Candidate;
      ghost var start := View();
      CandidateIs(nextID);
      nextID := Plus(nextID, 1);
      id := ToU16(nextID);
      if id == 0 {
        nextID := 1;
        id := 1;
        assert ToU16(1) == 1 by { SmallId(); }
      }
      ghost var c: int := nextID;
      PlusOne(c, 0);
      ghost var k := 0;
      var used := Used(id);
      if used {
        var i := 0;
        while used
          invariant i <= MAX_UINT16 && usedIDs == old(usedIDs)
          invariant k == i && nextID == Plus(c, k) && id == ToU16(c + k)
          invariant forall j :: c <= j < c + k - (if used then 0 else 1) ==> ToU16(j) in usedIDs
          invariant !used ==> k > 1 && ToU16(c + k - 1) !in usedIDs
          invariant k == 0 ==> id in usedIDs
          invariant k == 1 ==> ToU16(c) in usedIDs
          decreases used, MAX_UINT16 - i
        {
          if i == MAX_UINT16 {
            NextFails(start, extra);
            return 0;
          }
          used := Used(id);
          i := i + 1;
          PlusOne(c, k);
          PlusOne(c, k + 1);
          nextID := Plus(nextID, 1);
          id := ToU16(nextID);
          k := k + 1;
        }
        NextSkips(start, extra, k - 1);
        PlusOne(c, k);
      } else {
        NextTakes(start, extra);
      }
      if id > 0 {
        SetUsed(id, extra);
      }
    }

    method Release(id: u16)
      modifies this
      ensures View() == Free(old(View()), id)
    {
      usedIDs := usedIDs - {id};
    }

    method GetExtra(id: u16) returns (data: Option<T>)
      ensures data == if id in usedIDs then Some(usedIDs[id]) else None
    {
      data := if id in usedIDs then Some(usedIDs[id]) else None;
    }
  }

  // Which identifiers come out.

  predicate Fresh<T>(s: State<T>, id: u16) {
    id != 0 && id !in s.used
  }

  /** An allocation is fresh exactly when its candidate is free, or the identifier after the first
      free one is free as well and is not zero. */
  lemma {:induction false} NextFreshIff<T>(s: State<T>, extra: T)
    ensures var c := Candidate(s.nextID);
      var k := InUse(s.used, c, MAX_UINT16);
      Fresh(s, Next(s, extra).0)
      <==> ToU16(c) !in s.used || (k < MAX_UINT16 && Fresh(s, ToU16(c + k + 1)))
  {
    hide InUse, Plus, ToU16;
    var c := Candidate(s.nextID);
    var k := InUse(s.used, c, MAX_UINT16);
    PlusOne(c, k + 1);
    assert k == 0 ==> ToU16(c + 0) !in s.used;
  }

  // Runs from a new generator.

  datatype Op<T> = Alloc(extra: T) | Drop(id: u16)

  /** State and identifiers handed out so far. */
  datatype Log<T> = Log(state: State<T>, issued: seq<u16>)

  function Step<T>(log: Log<T>, op: Op<T>): Log<T> {
    match op
    case Alloc(extra) => Log(Next(log.state, extra).1, log.issued + [Next(log.state, extra).0])
    case Drop(id) => log.(state := Free(log.state, id))
  }

  function After<T>(ops: seq<Op<T>>): Log<T> {
    if ops == [] then Log(State(0, map[]), [])
    else Step(After(ops[..|ops| - 1]), ops[|ops| - 1])
  }

  /** Every identifier in use was handed out by one of the last 65534 allocations. */
  ghost predicate Recent<T>(log: Log<T>) {
    var from := if |log.issued| <= 65534 then 0 else |log.issued| - 65534;
    forall id :: id in log.state.used ==> id in log.issued[from..]
  }

  ghost predicate StaysRecent<T>(ops: seq<Op<T>>) {
    forall n :: 0 <= n < |ops| && ops[n].Alloc? ==> Recent(After(ops[..n]))
  }

  function Cyclic(k: nat): u16 {
    k % 65535 + 1
  }

  ghost predicate InStep<T>(log: Log<T>) {
    && (forall j :: 0 <= j < |log.issued| ==> log.issued[j] == Cyclic(j))
    && log.state.nextID == if log.issued == [] then 0 else Cyclic(|log.issued| - 1)
  }

  lemma CyclicDistinct(j: nat, k: nat)
    requires j < k <= j + 65534
    ensures Cyclic(j) != Cyclic(k)
  {
    var a, b := j / 65535, k / 65535;
    assert Cyclic(j) == Cyclic(k) ==> k - j == 65535 * (b - a);
    assert 0 < k - j < 65535 ==> k - j != 65535 * (b - a);
  }

  lemma NextInStep<T>(log: Log<T>)
    requires InStep(log)
    ensures var c := Candidate(log.state.nextID);
      c == ToU16(c) == Cyclic(|log.issued|)
  {
    CyclicStep(|log.issued|);
  }

  /** The identifier that comes next was not handed out recently. */
  lemma NotRecent<T>(log: Log<T>)
    requires InStep(log) && Recent(log)
    ensures Cyclic(|log.issued|) !in log.state.used
  {
    hide Cyclic;
    var k := |log.issued|;
    if Cyclic(k) in log.state.used {
      var from := if k <= 65534 then 0 else k - 65534;
      var j :| 0 <= j < k - from && log.issued[from..][j] == Cyclic(k);
      assert log.issued[from + j] == Cyclic(k);
      CyclicDistinct(from + j, k);
    }
  }

  /** While in step, a recent table leaves the next identifier of the cycle free. */
  lemma AllocInStep<T>(log: Log<T>, extra: T)
    requires InStep(log) && Recent(log)
    ensures var id := Next(log.state, extra).0;
      id == Cyclic(|log.issued|) && Fresh(log.state, id) && InStep(Step(log, Alloc(extra)))
      && Step(log, Alloc(extra)).state.used == log.state.used[id := extra]
  {
    hide Recent, Candidate, ToU16, Cyclic;
    NextInStep(log);
    NotRecent(log);
    CyclicPositive(|log.issued|);
    InUseAt(log.state.used, Candidate(log.state.nextID), MAX_UINT16, 0);
    var after := Step(log, Alloc(extra));
    assert after.issued == log.issued + [Cyclic(|log.issued|)];
  }

  lemma CyclicPositive(k: nat)
    ensures Cyclic(k) != 0 && (k < 65535 ==> Cyclic(k) == k + 1)
  {
  }

  lemma CyclicStep(k: nat)
    ensures Cyclic(k) == if k == 0 || Cyclic(k - 1) == 65535 then 1 else Cyclic(k - 1) + 1
  {
  }

  lemma {:induction false} RunInStep<T>(ops: seq<Op<T>>)
    requires StaysRecent(ops)
    ensures InStep(After(ops))
  {
    if ops != [] {
      var n := |ops| - 1;
      var before := ops[..n];
      assert forall i :: 0 <= i < n ==> before[..i] == ops[..i];
      RunInStep(before);
      if ops[n].Alloc? {
        AllocInStep(After(before), ops[n].extra);
      }
    }
  }

  /** As long as the table stays recent, the k-th allocation of a run gives ((k-1) mod 65535) + 1,
      which is never zero and never in use, also across the restart of the counter. */
  lemma {:induction false} AllocationsCycle<T>(ops: seq<Op<T>>, n: nat)
    requires StaysRecent(ops) && n < |ops| && ops[n].Alloc?
    ensures var before := After(ops[..n]);
      var id := Next(before.state, ops[n].extra).0;
      id == Cyclic(|before.issued|) && Fresh(before.state, id)
  {
    assert forall i :: 0 <= i < n ==> ops[..n][..i] == ops[..i];
    RunInStep(ops[..n]);
    AllocInStep(After(ops[..n]), ops[n].extra);
  }

  // Runs that never free.

  ghost predicate Full<T>(s: State<T>) {
    && s.nextID % 65536 == 65535
    && (forall id: u16 :: id in s.used <==> id != 0)
  }

  ghost predicate Exhausted<T>(s: State<T>) {
    && s.nextID % 65536 == 0
    && (forall id: u16 :: id in s.used <==> id != 0)
  }

  /** With every identifier in use an allocation gives 0 and changes nothing but the counter,
      which comes to rest at a multiple of 65536, also across the wrap of 32 bits. */
  lemma {:induction false} NextWhenExhausted<T>(s: State<T>, extra: T)
    requires Full(s) || Exhausted(s)
    ensures var (id, s') := Next(s, extra);
      id == 0 && s'.used == s.used && Exhausted(s')
  {
    hide InUse;
    var c := Candidate(s.nextID);
    assert c % 65536 == 1;
    forall i | c <= i < c + MAX_UINT16 ensures ToU16(i) in s.used {
      assert ToU16(i) == i - (c - 1) by {
        DivModUnique(i, 65536, c / 65536, i - (c - 1));
      }
    }
    InUseAt(s.used, c, MAX_UINT16, MAX_UINT16);
    Wraps(c + MAX_UINT16);
    assert c + MAX_UINT16 == 65536 * (c / 65536 + 1);
  }

  function Allocs<T>(extras: seq<T>): seq<Op<T>> {
    seq(|extras|, i requires 0 <= i < |extras| => Alloc(extras[i]))
  }

  lemma AllocsLast<T>(extras: seq<T>)
    requires extras != []
    ensures var n := |extras| - 1;
      After(Allocs(extras)) == Step(After(Allocs(extras[..n])), Alloc(extras[n]))
  {
    var n := |extras| - 1;
    assert Allocs(extras)[..n] == Allocs(extras[..n]);
  }

  /** The first 65535 allocations number themselves; the table is what was handed out. */
  lemma {:induction false} FirstRound<T>(extras: seq<T>)
    requires |extras| <= MAX_UINT16
    ensures var log := After(Allocs(extras));
      && |log.issued| == |extras| && InStep(log)
      && (forall id: u16 :: id in log.state.used <==> 1 <= id <= |extras|)
      && (forall id :: id in log.state.used ==> log.state.used[id] == extras[id - 1])
  {
    hide Cyclic, Next, InStep, Allocs;
    if extras == [] {
      NothingAllocated<T>();
    } else {
      var n := |extras| - 1;
      AllocsLast(extras);
      FirstRound(extras[..n]);
      var log := After(Allocs(extras[..n]));
      RecentFirst(log);
      AllocInStep(log, extras[n]);
      CyclicPositive(n);
    }
  }

  lemma NothingAllocated<T>()
    ensures Allocs<T>([]) == [] && InStep(After<T>([]))
  {
  }

  lemma RecentFirst<T>(log: Log<T>)
    requires InStep(log) && |log.issued| < MAX_UINT16
    requires forall id: u16 :: id in log.state.used <==> 1 <= id <= |log.issued|
    ensures Recent(log)
  {
    forall id | id in log.state.used ensures id in log.issued[0..] {
      assert log.issued[id - 1] == Cyclic(id - 1) == id;
    }
  }

  /** Without a free, every allocation after the 65535th gives 0 and leaves the table as it is. */
  lemma {:induction false} ThenExhausted<T>(extras: seq<T>)
    requires |extras| > MAX_UINT16
    ensures var log, full := After(Allocs(extras)), After(Allocs(extras[..MAX_UINT16]));
      && Exhausted(log.state)
      && log.state.used == full.state.used
      && |log.issued| == |extras| && log.issued[|extras| - 1] == 0
    decreases |extras|
  {
    hide Next, Allocs, After;
    var n := |extras| - 1;
    AllocsLast(extras);
    var before := After(Allocs(extras[..n]));
    if n == MAX_UINT16 {
      FirstRound(extras[..n]);
      FullAfterFirst(before);
    } else {
      ThenExhausted(extras[..n]);
      assert extras[..n][..MAX_UINT16] == extras[..MAX_UINT16];
    }
    NextWhenExhausted(before.state, extras[n]);
  }

  lemma FullAfterFirst<T>(log: Log<T>)
    requires InStep(log) && |log.issued| == MAX_UINT16
    requires forall id: u16 :: id in log.state.used <==> 1 <= id <= MAX_UINT16
    ensures Full(log.state)
  {
  }

  // Allocations that are not fresh, on tables that runs reach.

  /** Frees the identifiers up to `n`, all but those to keep. */
  function DropsBut<T>(keep: set<u16>, n: nat): seq<Op<T>>
    requires n <= MAX_UINT16
  {
    if n == 0 then [] else DropsBut<T>(keep, n - 1) + if n in keep then [] else [Drop(n)]
  }

  lemma {:induction false} DropsLeave<T>(ops: seq<Op<T>>, keep: set<u16>, n: nat)
    requires n <= MAX_UINT16
    ensures var before, log := After(ops), After(ops + DropsBut(keep, n));
      && log.state.nextID == before.state.nextID
      && (forall id :: id in log.state.used <==> id in before.state.used && (id == 0 || id > n || id in keep))
      && (forall id :: id in log.state.used ==> log.state.used[id] == before.state.used[id])
  {
    hide Next;
    if n == 0 {
      assert ops + DropsBut(keep, 0) == ops;
    } else {
      DropsLeave(ops, keep, n - 1);
      var fewer := ops + DropsBut(keep, n - 1);
      if n in keep {
        assert ops + DropsBut(keep, n) == fewer;
      } else {
        AfterOneMore(fewer, Drop(n));
        assert ops + DropsBut(keep, n) == fewer + [Drop(n)];
      }
    }
  }

  lemma AfterOneMore<T>(ops: seq<Op<T>>, op: Op<T>)
    ensures After(ops + [op]) == Step(After(ops), op)
  {
    assert (ops + [op])[..|ops|] == ops;
  }

  /** A run of 65535 allocations, freeing what is not to be kept. */
  function FullRound<T>(extras: seq<T>, keep: set<u16>): seq<Op<T>> {
    Allocs(extras) + DropsBut(keep, MAX_UINT16)
  }

  /** After a full round any set of identifiers can be the one in use. */
  lemma {:induction false} AnyTableReached<T>(extras: seq<T>, keep: set<u16>)
    requires |extras| == MAX_UINT16
    ensures var s := After(FullRound(extras, keep)).state;
      && s.nextID == 65535
      && (forall id :: id in s.used <==> id in keep && id != 0)
      && (forall id :: id in s.used ==> s.used[id] == extras[id - 1])
  {
    hide After, Allocs, DropsBut;
    FirstRound(extras);
    DropsLeave(Allocs(extras), keep, MAX_UINT16);
  }

  /** So runs get to an identifier in use being handed out: with 1 and 3 in use after a full round,
      the next request gets 3, and what was in flight under 3 is overwritten. */
  lemma {:induction false} CollisionReached<T>(extras: seq<T>, x: T)
    requires |extras| == MAX_UINT16
    ensures var s := After(FullRound(extras, {1, 3})).state;
      && s.used == map[1 := extras[0], 3 := extras[2]]
      && Next(s, x) == (3, State(3, map[1 := extras[0], 3 := x]))
  {
    hide After, FullRound;
    AnyTableReached(extras, {1, 3});
    var s := After(FullRound(extras, {1, 3})).state;
    assert s.used == map[1 := extras[0], 3 := extras[2]];
    InUseAt(s.used, 1, MAX_UINT16, 1);
    assert s.used[3 := x] == map[1 := extras[0], 3 := x];
  }

  function AllButLast(): (keep: set<u16>)
    ensures forall id: u16 :: id in keep <==> 1 <= id <= 65534
  {
    IdsUpTo(65534) - {0}
  }

  function IdsUpTo(n: u16): (ids: set<u16>)
    ensures forall id: u16 :: id in ids <==> id <= n
  {
    if n == 0 then {0} else IdsUpTo(n - 1) + {n}
  }

  /** And to 0 being handed out with an identifier left: with all but 65535 in use. */
  lemma {:induction false} ZeroReached<T>(extras: seq<T>, x: T)
    requires |extras| == MAX_UINT16
    ensures var s := After(FullRound(extras, AllButLast())).state;
      65535 !in s.used && Next(s, x).0 == 0
  {
    hide After, FullRound, Next, InUse, AllButLast, Plus;
    AnyTableReached(extras, AllButLast());
    var s := After(FullRound(extras, AllButLast())).state;
    CandidateIs(65535);
    assert Plus(65535, 1) == 65536 && Plus(1, 65535) == 65536 by { PlusHere(); }
    NextSkips(s, x, 65534);
  }

  lemma PlusHere()
    ensures Plus(65535, 1) == 65536 && Plus(1, 65535) == 65536
  {
  }
}
