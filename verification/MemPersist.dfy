/** The in-memory session store: its counter against the entries it counts. */
module MemPersist {
  import opened Bytes
  import opened Packets

  const UINT32_SIZE := 0x1_0000_0000

  datatype Strategy = Strategy(interval: nat, maxCount: u32, dropOnExceed: bool, duplicateReplace: bool)

  /** The strategy sets a limit and drops what is beyond. */
  predicate Limits(st: Strategy) {
    st.maxCount > 0 && st.dropOnExceed
  }

  datatype Mem = Mem(data: map<string, Packet>, n: u32)

  /** Storing under a key; false when the packet was dropped. */
  function Store(m: Mem, st: Strategy, key: string, p: Packet): (bool, Mem) {
    if Limits(st) && m.n >= st.maxCount then (false, m)
    else if key !in m.data then (true, Mem(m.data[key := p], (m.n + 1) % UINT32_SIZE))
    else if st.duplicateReplace then (true, m.(data := m.data[key := p]))
    else (true, m)
  }

  function Delete(m: Mem, key: string): Mem {
    m.(data := m.data - {key})
  }

  class MemPersist {
    const strategy: Strategy
    var data: map<string, Packet>
    var n: u32

    ghost function View(): Mem
      reads this
    {
      Mem(data, n)
    }

    constructor (strategy: Strategy)
      ensures this.strategy == strategy && View() == Mem(map[], 0)
    {
      this.strategy := strategy;
      data := map[];
      n := 0;
    }

    method StoreKey(key: string, p: Packet) returns (stored: bool)
      modifies this
      ensures (stored, View()) == Store(old(View()), strategy, key, p)
    {
      if strategy.maxCount > 0 && n >= strategy.maxCount && strategy.dropOnExceed {
        return false;
      }
      if key !in data {
        data := data[key := p];
        n := (n + 1) % UINT32_SIZE;
      } else if strategy.duplicateReplace {
        data := data[key := p];
      }
      return true;
    }

    method Load(key: string) returns (p: Option<Packet>)
      ensures p == if key in data then Some(data[key]) else None
    {
      p := if key in data then Some(data[key]) else None;
    }

    method DeleteKey(key: string)
      modifies this
      ensures View() == Delete(old(View()), key)
    {
      data := data - {key};
    }

    method Destroy()
      modifies this
      ensures View() == Mem(map[], old(n))
    {
      data := map[];
    }
  }

  // One caller at a time.

  datatype Op = OpStore(key: string, p: Packet) | OpDelete(key: string) | OpDestroy

  function Apply(m: Mem, st: Strategy, op: Op): Mem {
    match op
    case OpStore(key, p) => Store(m, st, key, p).1
    case OpDelete(key) => Delete(m, key)
    case OpDestroy => Mem(map[], m.n)
  }

  function Run(m: Mem, st: Strategy, ops: seq<Op>): Mem
    decreases |ops|
  {
    if ops == [] then m else Run(Apply(m, st, ops[0]), st, ops[1..])
  }

  predicate Counted(m: Mem, st: Strategy) {
    |m.data| <= m.n <= st.maxCount
  }

  /** Through any stores, deletions and wipes: entries <= counter <= limit. */
  lemma {:induction false} RunCounted(m: Mem, st: Strategy, ops: seq<Op>)
    requires Limits(st) && Counted(m, st)
    ensures Counted(Run(m, st, ops), st)
    decreases |ops|
  {
    if ops != [] {
      var m' := Apply(m, st, ops[0]);
      assert Counted(m', st) by {
        match ops[0]
        case OpStore(key, p) =>
          if key in m.data {
            assert m.data[key := p].Keys == m.data.Keys;
            SameSize(m.data, m.data[key := p]);
          } else {
            assert m.data[key := p].Keys == m.data.Keys + {key};
            KeysSize(m.data[key := p]);
            KeysSize(m.data);
          }
        case OpDelete(key) =>
          assert (m.data - {key}).Keys <= m.data.Keys;
          SubsetSize((m.data - {key}).Keys, m.data.Keys);
          KeysSize(m.data - {key});
          KeysSize(m.data);
        case OpDestroy =>
      }
      RunCounted(m', st, ops[1..]);
    }
  }

  lemma KeysSize<K, V>(m: map<K, V>)
    ensures |m| == |m.Keys|
  {
  }

  lemma SameSize<K, V>(a: map<K, V>, b: map<K, V>)
    requires a.Keys == b.Keys
    ensures |a| == |b|
  {
    KeysSize(a);
    KeysSize(b);
  }

  lemma {:induction false} SubsetSize<K>(a: set<K>, b: set<K>)
    requires a <= b
    ensures |a| <= |b|
    decreases a
  {
    if a != {} {
      var x :| x in a;
      SubsetSize(a - {x}, b - {x});
    }
  }

  // What a key holds.

  function Lookup(data: map<string, Packet>, key: string): Option<Packet> {
    if key in data then Some(data[key]) else None
  }

  /** What one key holds after some operations, told by those on this key alone: a store to a free key
      counts, one to a key in use only if it replaces. */
  function Remembered(held: Option<Packet>, replace: bool, ops: seq<Op>, key: string): Option<Packet>
    decreases |ops|
  {
    if ops == [] then held
    else
      var next := match ops[0]
        case OpStore(k, p) => if k == key && (held == None || replace) then Some(p) else held
        case OpDelete(k) => if k == key then None else held
        case OpDestroy => None;
      Remembered(next, replace, ops[1..], key)
  }

  /** Through any operations, a store without a limit holds under each key what was stored there last,
      or first if it does not replace, since the key was last free. */
  lemma {:induction false} RunRemembers(m: Mem, st: Strategy, ops: seq<Op>, key: string)
    requires !Limits(st)
    ensures Lookup(Run(m, st, ops).data, key) == Remembered(Lookup(m.data, key), st.duplicateReplace, ops, key)
    decreases |ops|
  {
    if ops != [] {
      RunRemembers(Apply(m, st, ops[0]), st, ops[1..], key);
    }
  }

  /** Nothing but a store to a free key moves the counter. */
  lemma {:induction false} CounterMoves(m: Mem, st: Strategy, op: Op)
    ensures Apply(m, st, op).n
            == if op.OpStore? && op.key !in m.data && Store(m, st, op.key, op.p).0 then (m.n + 1) % 0x1_0000_0000
               else m.n
  {
  }

  /** Under a limit a store is refused exactly when the counter has reached it, and then changes nothing;
      otherwise it does what it does without a limit. */
  lemma {:induction false} RefusedIff(m: Mem, st: Strategy, key: string, p: Packet)
    ensures Store(m, st, key, p).0 <==> !(st.maxCount > 0 && st.dropOnExceed && m.n >= st.maxCount)
    ensures var (ok, m') := Store(m, st, key, p);
      if ok then m' == Store(m, st.(dropOnExceed := false), key, p).1 else m' == m
  {
  }

  /** The counter never goes down: deleting makes no room under a limit. */
  lemma {:induction false} DeletionMakesNoRoom(m: Mem, st: Strategy, key: string, other: string, p: Packet)
    requires Limits(st) && m.n >= st.maxCount
    ensures Store(Delete(m, key), st, other, p).0 == false
  {
  }

  // Callers that interleave: check, insert and count are separate steps.

  datatype Pc =
    | Idle
    | Checked(key: string, p: Packet)
    | Inserted
    | Replacing(key: string, p: Packet)

  /** Shared store, every thread's position, and as history the keys that were ever inserted. */
  datatype Shared = Shared(data: map<string, Packet>, n: nat, pcs: seq<Pc>, ever: set<string>)

  datatype Action =
    | Check(t: nat, key: string, p: Packet)
    | Insert(t: nat)
    | Count(t: nat)
    | Replace(t: nat)
    | Remove(key: string)

  predicate Enabled(s: Shared, a: Action) {
    match a
    case Check(t, _, _) => t < |s.pcs| && s.pcs[t].Idle?
    case Insert(t) => t < |s.pcs| && s.pcs[t].Checked?
    case Count(t) => t < |s.pcs| && s.pcs[t].Inserted?
    case Replace(t) => t < |s.pcs| && s.pcs[t].Replacing?
    case Remove(_) => true
  }

  function Act(s: Shared, st: Strategy, a: Action): Shared
    requires Enabled(s, a)
  {
    match a
    case Check(t, key, p) =>
      if Limits(st) && s.n >= st.maxCount then s else s.(pcs := s.pcs[t := Checked(key, p)])
    case Insert(t) =>
      var key, p := s.pcs[t].key, s.pcs[t].p;
      if key !in s.data then
        s.(data := s.data[key := p], pcs := s.pcs[t := Inserted], ever := s.ever + {key})
      else if st.duplicateReplace then s.(pcs := s.pcs[t := Replacing(key, p)])
      else s.(pcs := s.pcs[t := Idle])
    case Count(t) => s.(n := (s.n + 1) % UINT32_SIZE, pcs := s.pcs[t := Idle])
    case Replace(t) => s.(data := s.data[s.pcs[t].key := s.pcs[t].p], pcs := s.pcs[t := Idle])
    case Remove(key) => s.(data := s.data - {key})
  }

  /** A thread that stores with no other coming between does what a single caller does. */
  lemma {:induction false} AloneStores(s: Shared, st: Strategy, t: nat, key: string, p: Packet)
    requires t < |s.pcs| && s.pcs[t] == Idle && s.n < UINT32_SIZE
    ensures var (ok, m) := Store(Mem(s.data, s.n), st, key, p);
      var checked := Act(s, st, Check(t, key, p));
      if !ok then checked == s
      else
        && Enabled(checked, Insert(t))
        && var inserted := Act(checked, st, Insert(t));
        var last := if Enabled(inserted, Count(t)) then Act(inserted, st, Count(t))
                    else if Enabled(inserted, Replace(t)) then Act(inserted, st, Replace(t))
                    else inserted;
        last.pcs == s.pcs && last.data == m.data && last.n == m.n
  {
    assert s.pcs[t := Checked(key, p)][t := Inserted][t := Idle] == s.pcs;
    assert s.pcs[t := Checked(key, p)][t := Replacing(key, p)][t := Idle] == s.pcs;
    assert s.pcs[t := Checked(key, p)][t := Idle] == s.pcs;
  }

  function Number(pcs: seq<Pc>, f: Pc -> bool): nat {
    if pcs == [] then 0 else (if f(pcs[0]) then 1 else 0) + Number(pcs[1..], f)
  }

  const COUNTING: Pc -> bool := (pc: Pc) => pc.Inserted?
  const PAST: Pc -> bool := (pc: Pc) => pc.Checked? || pc.Inserted?

  lemma {:induction false} NumberUpdate(pcs: seq<Pc>, t: nat, pc: Pc, f: Pc -> bool)
    requires t < |pcs|
    ensures Number(pcs[t := pc], f) == Number(pcs, f) - (if f(pcs[t]) then 1 else 0) + if f(pc) then 1 else 0
  {
    if t == 0 {
      assert pcs[t := pc][1..] == pcs[1..];
    } else {
      assert pcs[t := pc][1..] == pcs[1..][t - 1 := pc];
      NumberUpdate(pcs[1..], t - 1, pc, f);
    }
  }

  lemma {:induction false} NumberBounds(pcs: seq<Pc>)
    ensures Number(pcs, COUNTING) <= Number(pcs, PAST) <= |pcs|
  {
    if pcs != [] {
      NumberBounds(pcs[1..]);
    }
  }

  /** Threads past the check plus the counter stay below limit plus threads; what is in the store
      was counted or is about to be. */
  ghost predicate Inv(s: Shared, st: Strategy) {
    && s.n + Number(s.pcs, PAST) <= st.maxCount - 1 + |s.pcs|
    && s.data.Keys <= s.ever
    && |s.ever| <= s.n + Number(s.pcs, COUNTING)
    && forall t :: 0 <= t < |s.pcs| && s.pcs[t].Replacing? ==> s.pcs[t].key in s.ever
  }

  lemma ActKeepsInv(s: Shared, st: Strategy, a: Action)
    requires Limits(st) && Inv(s, st) && Enabled(s, a)
    requires st.maxCount - 1 + |s.pcs| < UINT32_SIZE
    ensures Inv(Act(s, st, a), st)
  {
    hide Number;
    NumberBounds(s.pcs);
    var s' := Act(s, st, a);
    NumberBounds(s'.pcs);
    match a
    case Check(t, key, p) =>
      NumberUpdate(s.pcs, t, Checked(key, p), PAST);
      NumberUpdate(s.pcs, t, Checked(key, p), COUNTING);
    case Insert(t) => InsertKeepsInv(s, st, t);
    case Count(t) =>
      NumberUpdate(s.pcs, t, Idle, PAST);
      NumberUpdate(s.pcs, t, Idle, COUNTING);
    case Replace(t) =>
      NumberUpdate(s.pcs, t, Idle, PAST);
      NumberUpdate(s.pcs, t, Idle, COUNTING);
    case Remove(_) =>
  }

  lemma InsertKeepsInv(s: Shared, st: Strategy, t: nat)
    requires Inv(s, st) && Enabled(s, Insert(t))
    ensures Inv(Act(s, st, Insert(t)), st)
  {
    hide Number, Limits;
    var s' := Act(s, st, Insert(t));
    NumberUpdate(s.pcs, t, s'.pcs[t], PAST);
    NumberUpdate(s.pcs, t, s'.pcs[t], COUNTING);
    assert |s.ever + {s.pcs[t].key}| <= |s.ever| + 1;
  }

  ghost predicate Runs(states: seq<Shared>, st: Strategy, actions: seq<Action>) {
    && |states| == |actions| + 1
    && forall i :: 0 <= i < |actions| ==>
         Enabled(states[i], actions[i]) && states[i + 1] == Act(states[i], st, actions[i])
  }

  /** With `T` threads in the middle of storing, in any interleaving and through any deletions,
      neither the counter nor the number of entries exceeds the limit by more than `T - 1`. */
  lemma {:induction false} ConcurrentBound(states: seq<Shared>, st: Strategy, actions: seq<Action>, i: nat)
    requires Limits(st) && Runs(states, st, actions) && i < |states|
    requires var s := states[0];
      && |s.pcs| > 0 && st.maxCount - 1 + |s.pcs| < UINT32_SIZE
      && (forall t :: 0 <= t < |s.pcs| ==> s.pcs[t] == Idle)
      && s.ever == s.data.Keys && |s.data| <= s.n <= st.maxCount
    ensures |states[i].pcs| == |states[0].pcs| && Inv(states[i], st)
    ensures states[i].n <= st.maxCount - 1 + |states[0].pcs|
    ensures |states[i].data| <= st.maxCount - 1 + |states[0].pcs|
  {
    hide Number;
    if i == 0 {
      NoneActive(states[0].pcs);
      KeysSize(states[0].data);
    } else {
      ConcurrentBound(states, st, actions, i - 1);
      assert states[i] == Act(states[i - 1], st, actions[i - 1]);
      ActKeepsInv(states[i - 1], st, actions[i - 1]);
    }
    NumberBounds(states[i].pcs);
    SubsetSize(states[i].data.Keys, states[i].ever);
    KeysSize(states[i].data);
  }

  lemma {:induction false} NoneActive(pcs: seq<Pc>)
    requires forall t :: 0 <= t < |pcs| ==> pcs[t] == Idle
    ensures Number(pcs, PAST) == 0 && Number(pcs, COUNTING) == 0
  {
    if pcs != [] {
      NoneActive(pcs[1..]);
    }
  }

  // The bound is attained: all threads check before any of them counts.

  /** The shared state when the first `checked` threads checked, `inserted` of them inserted, and
      `counted` of those counted, each with a key of its own. */
  function Progress(start: Shared, keys: seq<string>, p: Packet, checked: nat, inserted: nat, counted: nat): Shared
    requires counted <= inserted <= checked <= |keys|
  {
    Shared(Filled(start.data, keys[..inserted], p), start.n + counted,
           Positions(keys, p, checked, inserted, counted), start.ever + KeySet(keys[..inserted]))
  }

  function KeySet(keys: seq<string>): set<string> {
    set k | k in keys
  }

  function Filled(data: map<string, Packet>, keys: seq<string>, p: Packet): map<string, Packet> {
    data + map k | k in keys :: p
  }

  function Positions(keys: seq<string>, p: Packet, checked: nat, inserted: nat, counted: nat): seq<Pc> {
    seq(|keys|, t requires 0 <= t < |keys| =>
                  if t < counted then Idle
                  else if t < inserted then Inserted
                  else if t < checked then Checked(keys[t], p)
                  else Idle)
  }

  lemma FilledOneMore(data: map<string, Packet>, keys: seq<string>, p: Packet, t: nat)
    requires t < |keys| && keys[t] !in data
    requires forall i, j :: 0 <= i < j < |keys| ==> keys[i] != keys[j]
    ensures keys[t] !in Filled(data, keys[..t], p)
    ensures Filled(data, keys[..t + 1], p) == Filled(data, keys[..t], p)[keys[t] := p]
    ensures KeySet(keys[..t + 1]) == KeySet(keys[..t]) + {keys[t]}
  {
    hide Filled, KeySet;
    assert keys[t] !in keys[..t];
    assert keys[..t + 1] == keys[..t] + [keys[t]];
    FilledAppend(data, keys[..t], keys[t], p);
  }

  lemma FilledAppend(data: map<string, Packet>, keys: seq<string>, key: string, p: Packet)
    ensures key !in data && key !in keys ==> key !in Filled(data, keys, p)
    ensures Filled(data, keys + [key], p) == Filled(data, keys, p)[key := p]
    ensures KeySet(keys + [key]) == KeySet(keys) + {key}
  {
    assert forall k :: k in keys + [key] <==> k in keys || k == key;
    assert KeySet(keys + [key]) == KeySet(keys) + {key};
    var more := Filled(data, keys + [key], p);
    assert more.Keys == data.Keys + KeySet(keys) + {key};
  }

  function Convoy(start: Shared, keys: seq<string>, p: Packet, i: nat): Shared
    requires i <= 3 * |keys|
  {
    var size := |keys|;
    if i <= size then Progress(start, keys, p, i, 0, 0)
    else if i <= 2 * size then Progress(start, keys, p, size, i - size, 0)
    else Progress(start, keys, p, size, size, i - 2 * size)
  }

  function ConvoyAction(keys: seq<string>, p: Packet, i: nat): Action
    requires i < 3 * |keys|
  {
    if i < |keys| then Check(i, keys[i], p)
    else if i < 2 * |keys| then Insert(i - |keys|)
    else Count(i - 2 * |keys|)
  }

  ghost predicate ConvoyStart(start: Shared, st: Strategy, keys: seq<string>) {
    && Limits(st) && st.maxCount - 1 + |keys| < UINT32_SIZE
    && start.n == |start.data| == st.maxCount - 1 && start.ever == start.data.Keys
    && (forall i :: 0 <= i < |keys| ==> keys[i] !in start.data)
    && (forall i, j :: 0 <= i < j < |keys| ==> keys[i] != keys[j])
  }

  lemma CheckStep(start: Shared, st: Strategy, keys: seq<string>, p: Packet, t: nat)
    requires ConvoyStart(start, st, keys) && t < |keys|
    ensures var s := Progress(start, keys, p, t, 0, 0);
      Enabled(s, Check(t, keys[t], p)) && Progress(start, keys, p, t + 1, 0, 0) == Act(s, st, Check(t, keys[t], p))
  {
    assert Positions(keys, p, t + 1, 0, 0) == Positions(keys, p, t, 0, 0)[t := Checked(keys[t], p)];
  }

  lemma InsertStep(start: Shared, st: Strategy, keys: seq<string>, p: Packet, t: nat)
    requires ConvoyStart(start, st, keys) && t < |keys|
    ensures var s := Progress(start, keys, p, |keys|, t, 0);
      Enabled(s, Insert(t)) && Progress(start, keys, p, |keys|, t + 1, 0) == Act(s, st, Insert(t))
  {
    hide Filled, Positions, KeySet;
    FilledOneMore(start.data, keys, p, t);
    PositionAt(keys, p, |keys|, t, 0, t);
    PositionInserted(keys, p, t);
    assert start.ever + (KeySet(keys[..t]) + {keys[t]}) == start.ever + KeySet(keys[..t]) + {keys[t]};
  }

  lemma PositionInserted(keys: seq<string>, p: Packet, t: nat)
    requires t < |keys|
    ensures |Positions(keys, p, |keys|, t, 0)| == |keys|
    ensures Positions(keys, p, |keys|, t + 1, 0) == Positions(keys, p, |keys|, t, 0)[t := Inserted]
  {
  }

  lemma PositionCounted(keys: seq<string>, p: Packet, t: nat)
    requires t < |keys|
    ensures Positions(keys, p, |keys|, |keys|, t + 1) == Positions(keys, p, |keys|, |keys|, t)[t := Idle]
  {
  }

  lemma PositionAt(keys: seq<string>, p: Packet, checked: nat, inserted: nat, counted: nat, t: nat)
    requires counted <= inserted <= checked <= |keys| && t < |keys|
    ensures |Positions(keys, p, checked, inserted, counted)| == |keys|
    ensures Positions(keys, p, checked, inserted, counted)[t]
            == if t < counted then Idle
               else if t < inserted then Inserted
               else if t < checked then Checked(keys[t], p)
               else Idle
  {
  }

  lemma CountStep(start: Shared, st: Strategy, keys: seq<string>, p: Packet, t: nat)
    requires ConvoyStart(start, st, keys) && t < |keys|
    ensures var s := Progress(start, keys, p, |keys|, |keys|, t);
      Enabled(s, Count(t)) && Progress(start, keys, p, |keys|, |keys|, t + 1) == Act(s, st, Count(t))
  {
    hide Filled, Positions, KeySet;
    PositionAt(keys, p, |keys|, |keys|, t, t);
    PositionCounted(keys, p, t);
  }

  lemma ConvoyStep(start: Shared, st: Strategy, keys: seq<string>, p: Packet, i: nat)
    requires ConvoyStart(start, st, keys) && i < 3 * |keys|
    ensures Enabled(Convoy(start, keys, p, i), ConvoyAction(keys, p, i))
    ensures Convoy(start, keys, p, i + 1) == Act(Convoy(start, keys, p, i), st, ConvoyAction(keys, p, i))
  {
    hide Progress, Act, Enabled;
    if i < |keys| {
      CheckStep(start, st, keys, p, i);
    } else if i < 2 * |keys| {
      InsertStep(start, st, keys, p, i - |keys|);
    } else {
      CountStep(start, st, keys, p, i - 2 * |keys|);
    }
  }

  lemma ConvoyEnds(start: Shared, st: Strategy, keys: seq<string>, p: Packet)
    requires ConvoyStart(start, st, keys) && start.pcs == seq(|keys|, t => Idle)
    ensures Convoy(start, keys, p, 0) == start
    ensures var last := Convoy(start, keys, p, 3 * |keys|);
      last.n == |last.data| == st.maxCount - 1 + |keys|
  {
    hide Filled, KeySet, Positions;
    FilledNone(start.data, p);
    NobodyActive(keys, p, start.pcs);
    assert keys[..0] == [] && keys[..|keys|] == keys;
    assert start.ever + {} == start.ever;
    FilledSize(start.data, keys, p);
  }

  lemma FilledNone(data: map<string, Packet>, p: Packet)
    ensures Filled(data, [], p) == data && KeySet([]) == {}
  {
  }

  lemma NobodyActive(keys: seq<string>, p: Packet, pcs: seq<Pc>)
    requires pcs == seq(|keys|, t => Idle)
    ensures Positions(keys, p, 0, 0, 0) == pcs
  {
  }

  lemma FilledSize(data: map<string, Packet>, keys: seq<string>, p: Packet)
    requires forall i :: 0 <= i < |keys| ==> keys[i] !in data
    requires forall i, j :: 0 <= i < j < |keys| ==> keys[i] != keys[j]
    ensures |Filled(data, keys, p)| == |data| + |keys|
  {
    DistinctSize(keys);
    var all := Filled(data, keys, p);
    assert all.Keys == data.Keys + KeySet(keys) && data.Keys !! KeySet(keys);
    KeysSize(all);
    KeysSize(data);
  }

  lemma {:induction false} DistinctSize(keys: seq<string>)
    requires forall i, j :: 0 <= i < j < |keys| ==> keys[i] != keys[j]
    ensures |KeySet(keys)| == |keys|
  {
    if keys != [] {
      var rest := keys[1..];
      DistinctSize(rest);
      assert keys[0] !in rest;
      assert KeySet(keys) == KeySet(rest) + {keys[0]};
    }
  }

  /** So the bound is exact: some run of `T` threads ends with both at limit plus `T - 1`. */
  lemma {:induction false} BoundAttained(start: Shared, st: Strategy, keys: seq<string>, p: Packet)
    returns (states: seq<Shared>, actions: seq<Action>)
    requires ConvoyStart(start, st, keys) && |keys| > 0
    requires start.pcs == seq(|keys|, t => Idle)
    ensures Runs(states, st, actions) && states[0] == start
    ensures var last := states[|states| - 1];
      last.n == |last.data| == st.maxCount - 1 + |keys|
  {
    hide Progress, Act, Enabled, Convoy;
    var size := |keys|;
    states := seq(3 * size + 1, i requires 0 <= i <= 3 * size => Convoy(start, keys, p, i));
    actions := seq(3 * size, i requires 0 <= i < 3 * size => ConvoyAction(keys, p, i));
    forall i | 0 <= i < |actions|
      ensures Enabled(states[i], actions[i]) && states[i + 1] == Act(states[i], st, actions[i])
    {
      ConvoyStep(start, st, keys, p, i);
    }
    ConvoyEnds(start, st, keys, p);
  }
}
