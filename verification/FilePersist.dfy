/** The session store on files: a buffer, flushed by a worker after an interval. */
module FilePersist {
  import opened Bytes
  import opened MemPersist
  import opened Packets
  import Codec
  import Encoder
  import RoundTrip
  import Streams

  /** The directory by key, the buffer, and the counters of files written and packets buffered. */
  datatype Disk = Disk(files: map<string, bytes>, buffer: map<string, Packet>, n: u32, inMemSize: u32)

  /** One successful file write; the counter of buffered packets goes down even if none is. */
  function WriteFile(d: Disk, key: string, p: Packet): Disk {
    d.(files := d.files[key := Encoder.Content(p)],
       n := (d.n + 1) % UINT32_SIZE,
       inMemSize := (d.inMemSize - 1) % UINT32_SIZE)
  }

  predicate Exceeds(d: Disk, st: Strategy) {
    Limits(st) && (d.n + d.inMemSize) % UINT32_SIZE >= st.maxCount
  }

  /** Storing under a key; false when the packet was dropped. */
  function Put(d: Disk, st: Strategy, key: string, p: Packet): (bool, Disk) {
    if Exceeds(d, st) then (false, d)
    else if key in d.files && !st.duplicateReplace then (true, d)
    else if st.interval > 0 then
      (true, d.(buffer := d.buffer[key := p], inMemSize := (d.inMemSize + 1) % UINT32_SIZE))
    else (true, WriteFile(d, key, p))
  }

  function Contents(buffer: map<string, Packet>, keys: set<string>): map<string, bytes>
    requires keys <= buffer.Keys
  {
    map k | k in keys :: Encoder.Content(buffer[k])
  }

  /** The disk after some of the buffered packets were written. */
  function FlushSome(d: Disk, done: set<string>): (r: Disk)
    requires done <= d.buffer.Keys
    ensures r.buffer == d.buffer
  {
    d.(files := d.files + Contents(d.buffer, done),
       n := (d.n + |done|) % UINT32_SIZE,
       inMemSize := (d.inMemSize - |done|) % UINT32_SIZE)
  }

  /** What one round of the worker makes of the buffer. */
  function Flush(d: Disk): Disk {
    FlushSome(d, d.buffer.Keys).(buffer := map[])
  }

  function Load(d: Disk, key: string): Option<Codec.Message> {
    if key !in d.files then None
    else match Codec.Decode(V311, d.files[key]).0
      case Ok(m) => Some(m)
      case Err(_) => None
  }

  // Counting what is there when a store is opened.

  /** What a path leads to, links not followed; nothing can be learnt about a missing node. */
  datatype Node = File(name: string) | Dir(entries: seq<Node>) | Missing

  const FILE_SUFFIX := ".mqtt"

  predicate PacketFile(node: Node) {
    node.File? && |node.name| >= |FILE_SUFFIX| && node.name[|node.name| - |FILE_SUFFIX|..] == FILE_SUFFIX
  }

  lemma {:induction false} PacketFileNames(name: string)
    ensures PacketFile(File(name)) <==> exists stem: string :: name == stem + ".mqtt"
  {
    if PacketFile(File(name)) {
      assert name == name[..|name| - 5] + ".mqtt";
    }
    if stem: string :| name == stem + ".mqtt" {
      assert name[|stem|..] == ".mqtt";
    }
  }

  /** Whether the walk is told to skip, and the packet files counted so far. */
  datatype Walked = Walked(skip: bool, counted: nat)

  /** Walks a tree, each node before its entries; `skips` is what the callback answers. */
  function Walk(node: Node, skips: Node -> bool): Walked {
    if skips(node) then Walked(true, 0)
    else if node.Dir? then WalkEntries(node.entries, skips)
    else Walked(false, if PacketFile(node) then 1 else 0)
  }

  /** Skipping at a file skips what is left of its directory. */
  function WalkEntries(entries: seq<Node>, skips: Node -> bool): Walked {
    if entries == [] then Walked(false, 0)
    else
      var first := Walk(entries[0], skips);
      if first.skip && entries[0].File? then first
      else
        var later := WalkEntries(entries[1..], skips);
        Walked(later.skip, first.counted + later.counted)
  }

  /** The answer given when a store is opened. */
  function SkipsDirs(): Node -> bool {
    (node: Node) => !node.File?
  }

  function SkipsMissing(): Node -> bool {
    (node: Node) => node.Missing?
  }

  function PacketFiles(nodes: seq<Node>): nat {
    if nodes == [] then 0
    else
      (if nodes[0].Dir? then PacketFiles(nodes[0].entries) else if PacketFile(nodes[0]) then 1 else 0)
      + PacketFiles(nodes[1..])
  }

  /** Answering so only where nothing is found, the walk would count the packet files at any depth. */
  lemma {:induction false} EntriesWouldCount(entries: seq<Node>)
    ensures WalkEntries(entries, SkipsMissing()) == Walked(false, PacketFiles(entries))
  {
    if entries != [] {
      if entries[0].Dir? {
        EntriesWouldCount(entries[0].entries);
      }
      EntriesWouldCount(entries[1..]);
    }
  }

  /** As it is, none counts in a directory: they are all counted if and only if there are none. */
  lemma {:induction false} OpeningCounts(entries: seq<Node>)
    ensures Walk(Dir(entries), SkipsDirs()).counted == 0
    ensures Walk(Dir(entries), SkipsDirs()).counted == Walk(Dir(entries), SkipsMissing()).counted
            <==> PacketFiles(entries) == 0
  {
    EntriesWouldCount(entries);
  }

  class FilePersist {
    const strategy: Strategy
    var files: map<string, bytes>
    var inMemBuf: map<string, Packet>
    var inMemSize: u32
    var n: u32

    ghost function View(): Disk
      reads this
    {
      Disk(files, inMemBuf, n, inMemSize)
    }

    /** Opens what is at a path. The walk that is to count the packet files there visits the path
        itself first and skips a directory, so the count starts at zero whatever is in it; it starts
        at one for a file, or a link, whose own name looks like a packet's. */
    constructor (strategy: Strategy, root: Node, files: map<string, bytes>)
      ensures this.strategy == strategy
      ensures View() == Disk(files, map[], if PacketFile(root) then 1 else 0, 0)
    {
      this.strategy := strategy;
      this.files := files;
      inMemBuf := map[];
      inMemSize := 0;
      n := Walk(root, SkipsDirs()).counted;
    }

    method WriteOne(key: string, p: Packet)
      modifies this
      ensures View() == WriteFile(old(View()), key, p)
    {
      hide Encoder.Encode, Encoder.First;
      var w := new Streams.Writer();
      var _, _ := Encoder.WriteTo(p, w);
      assert [] + Encoder.Content(p) == Encoder.Content(p);
      files := files[key := w.out];
      n := (n + 1) % UINT32_SIZE;
      inMemSize := (inMemSize - 1) % UINT32_SIZE;
    }

    /** Stores a packet; `schedule` tells that a worker is to be started. */
    method StoreKey(key: string, p: Packet) returns (stored: bool, schedule: bool)
      modifies this
      ensures (stored, View()) == Put(old(View()), strategy, key, p)
      ensures schedule <==> Takes(old(View()), strategy, key) && strategy.interval > 0 && old(inMemSize) == 0
    {
      schedule := false;
      if strategy.maxCount > 0 && strategy.dropOnExceed && (n + inMemSize) % UINT32_SIZE >= strategy.maxCount {
        return false, false;
      }
      if key !in files || strategy.duplicateReplace {
        if strategy.interval > 0 {
          schedule := inMemSize == 0;
          inMemBuf := inMemBuf[key := p];
          inMemSize := (inMemSize + 1) % UINT32_SIZE;
        } else {
          WriteOne(key, p);
        }
      }
      stored := true;
    }

    /** One round of the worker: every buffered packet is written, in any order, then removed. */
    method FlushRound()
      modifies this
      ensures View() == Flush(old(View()))
    {
      hide Encoder.Content, Contents, FlushSome, WriteFile;
      var todo := inMemBuf.Keys;
      ghost var start := View();
      ghost var done: set<string> := {};
      FlushNone(start);
      while todo != {}
        invariant done + todo == start.buffer.Keys && done !! todo
        invariant View() == FlushSome(start, done)
        decreases todo
      {
        var k :| k in todo;
        FlushOneMore(start, done, k);
        WriteOne(k, inMemBuf[k]);
        todo := todo - {k};
        done := done + {k};
      }
      assert done == start.buffer.Keys;
      inMemBuf := map[];
    }
  }

  lemma ContentsOneMore(files: map<string, bytes>, buffer: map<string, Packet>, done: set<string>, k: string)
    requires done <= buffer.Keys && k in buffer && k !in done
    ensures files + Contents(buffer, done + {k}) == (files + Contents(buffer, done))[k := Encoder.Content(buffer[k])]
  {
    hide Encoder.Content;
  }

  lemma FlushOneMore(d: Disk, done: set<string>, k: string)
    requires done <= d.buffer.Keys && k in d.buffer && k !in done
    ensures FlushSome(d, done + {k}) == WriteFile(FlushSome(d, done), k, d.buffer[k])
  {
    hide Encoder.Content, Contents;
    assert |done + {k}| == |done| + 1;
    ContentsOneMore(d.files, d.buffer, done, k);
    NextWraps(d.n + |done|);
    NextWraps(d.inMemSize - |done| - 1);
  }

  lemma NextWraps(a: int)
    ensures (a % UINT32_SIZE + 1) % UINT32_SIZE == (a + 1) % UINT32_SIZE
    ensures ((a + 1) % UINT32_SIZE - 1) % UINT32_SIZE == a % UINT32_SIZE
  {
    Congruent(a + 1, a % UINT32_SIZE + 1, a / UINT32_SIZE);
    Congruent(a, (a + 1) % UINT32_SIZE - 1, (a + 1) / UINT32_SIZE);
  }

  lemma FlushCounts(d: Disk)
    ensures var d' := Flush(d);
      && d'.buffer == map[]
      && d'.n == (d.n + |d.buffer|) % UINT32_SIZE && d'.inMemSize == (d.inMemSize - |d.buffer|) % UINT32_SIZE
  {
    hide Contents;
    KeysSize(d.buffer);
  }

  lemma FlushNone(d: Disk)
    ensures FlushSome(d, {}) == d
  {
    hide Encoder.Content;
    assert d.files + Contents(d.buffer, {}) == d.files;
  }

  // The counters over whole runs, with an interval.

  datatype Op = OpPut(key: string, p: Packet) | OpFlush

  /** The disk, and how many packets were taken into the buffer. */
  datatype Tally = Tally(disk: Disk, accepted: nat)

  /** A store that takes the packet, rather than dropping it or finding it on disk already. */
  predicate Takes(d: Disk, st: Strategy, key: string) {
    !Exceeds(d, st) && (key !in d.files || st.duplicateReplace)
  }

  function Apply(t: Tally, st: Strategy, op: Op): Tally {
    match op
    case OpPut(key, p) =>
      Tally(Put(t.disk, st, key, p).1, t.accepted + if Takes(t.disk, st, key) then 1 else 0)
    case OpFlush => t.(disk := Flush(t.disk))
  }

  function Run(t: Tally, st: Strategy, ops: seq<Op>): Tally
    decreases |ops|
  {
    if ops == [] then t else Run(Apply(t, st, ops[0]), st, ops[1..])
  }

  /** Files counted plus packets buffered are what there was plus what was accepted. */
  predicate Conserved(t: Tally, base: nat) {
    (t.disk.n + t.disk.inMemSize) % UINT32_SIZE == (base + t.accepted) % UINT32_SIZE
  }

  lemma Congruent(x: int, y: int, k: int)
    requires x == y + UINT32_SIZE * k
    ensures x % UINT32_SIZE == y % UINT32_SIZE
  {
  }

  lemma SumWraps(a: int, b: int)
    ensures (a % UINT32_SIZE + b % UINT32_SIZE) % UINT32_SIZE == (a + b) % UINT32_SIZE
  {
    Congruent(a + b, a % UINT32_SIZE + b % UINT32_SIZE, a / UINT32_SIZE + b / UINT32_SIZE);
  }

  lemma OneMore(n: u32, m: u32, total: nat)
    requires (n + m) % UINT32_SIZE == total % UINT32_SIZE
    ensures (n + (m + 1) % UINT32_SIZE) % UINT32_SIZE == (total + 1) % UINT32_SIZE
  {
    Congruent(n + m + 1, n + (m + 1) % UINT32_SIZE, (m + 1) / UINT32_SIZE);
    Congruent(n + m + 1, total + 1, (n + m) / UINT32_SIZE - total / UINT32_SIZE);
  }

  lemma ApplyConserves(t: Tally, st: Strategy, op: Op, base: nat)
    requires st.interval > 0 && Conserved(t, base)
    ensures Conserved(Apply(t, st, op), base)
  {
    hide Put, Flush, Takes;
    var d := t.disk;
    match op
    case OpPut(key, p) =>
      PutCounts(d, st, key, p);
      if Takes(d, st, key) {
        OneMore(d.n, d.inMemSize, base + t.accepted);
      }
    case OpFlush =>
      FlushCounts(d);
      SumWraps(d.n + |d.buffer|, d.inMemSize - |d.buffer|);
  }

  lemma PutCounts(d: Disk, st: Strategy, key: string, p: Packet)
    requires st.interval > 0
    ensures Put(d, st, key, p).1
            == if Takes(d, st, key)
               then d.(buffer := d.buffer[key := p], inMemSize := (d.inMemSize + 1) % UINT32_SIZE)
               else d
  {
    hide Encoder.Content, Limits;
  }

  /** With an interval and successful writes, the sum of the counters only ever grows by what is
      accepted, through any stores and flushes. */
  lemma {:induction false} RunConserves(t: Tally, st: Strategy, ops: seq<Op>, base: nat)
    requires st.interval > 0 && Conserved(t, base)
    ensures Conserved(Run(t, st, ops), base)
    decreases |ops|
  {
    hide Apply, Conserved;
    if ops != [] {
      ApplyConserves(t, st, ops[0], base);
      RunConserves(Apply(t, st, ops[0]), st, ops[1..], base);
    }
  }

  /** The counters, and the files beyond `found`, which were there before any was counted. */
  predicate Within(t: Tally, st: Strategy, base: nat, found: nat) {
    && t.disk.n + t.disk.inMemSize == base + t.accepted <= st.maxCount
    && |t.disk.buffer| <= t.disk.inMemSize
    && |t.disk.files| <= found + t.disk.n
  }

  /** So the limit holds: under it nothing wraps, and files and buffered packets together never
      exceed it by more than the files that were there at the start. */
  lemma {:induction false} RunWithinLimit(t: Tally, st: Strategy, ops: seq<Op>, base: nat, found: nat)
    requires st.interval > 0 && Limits(st) && Within(t, st, base, found)
    ensures Within(Run(t, st, ops), st, base, found)
    ensures var d := Run(t, st, ops).disk; |d.files| + |d.buffer| <= found + st.maxCount
    decreases |ops|
  {
    hide Apply;
    if ops != [] {
      ApplyWithin(t, st, ops[0], base, found);
      RunWithinLimit(Apply(t, st, ops[0]), st, ops[1..], base, found);
    }
  }

  lemma ApplyWithin(t: Tally, st: Strategy, op: Op, base: nat, found: nat)
    requires st.interval > 0 && Limits(st) && Within(t, st, base, found)
    ensures Within(Apply(t, st, op), st, base, found)
  {
    hide Put, Flush;
    var d := t.disk;
    match op
    case OpPut(key, p) =>
      PutCounts(d, st, key, p);
      if Takes(d, st, key) {
        BufferGrows(d.buffer, key, p);
      }
    case OpFlush =>
      FlushCounts(d);
      FlushFiles(d);
  }

  lemma FlushFiles(d: Disk)
    ensures |Flush(d).files| <= |d.files| + |d.buffer|
  {
    hide Encoder.Content;
    var more := Contents(d.buffer, d.buffer.Keys);
    assert more.Keys == d.buffer.Keys;
    assert (d.files + more).Keys == d.files.Keys + more.Keys;
    KeysSize(d.files);
    KeysSize(d.buffer);
    KeysSize(d.files + more);
    UnionSize(d.files.Keys, more.Keys);
  }

  lemma UnionSize<K>(a: set<K>, b: set<K>)
    ensures |a + b| <= |a| + |b|
  {
    assert a + b == a + (b - a);
  }

  lemma BufferGrows(buffer: map<string, Packet>, key: string, p: Packet)
    ensures |buffer[key := p]| == |buffer| + if key in buffer then 0 else 1
  {
    KeysSize(buffer);
    KeysSize(buffer[key := p]);
    assert buffer[key := p].Keys == buffer.Keys + {key};
  }

  /** Without an interval the documented limit is not kept: each write takes from one counter what
      it adds to the other, so their sum, which the limit is compared with, never moves. */
  lemma {:induction false} NoLimitWithoutInterval(d: Disk, st: Strategy, keys: seq<string>, p: Packet)
    requires st.interval == 0 && !Exceeds(d, st)
    ensures var d' := PutAll(d, st, keys, p);
      !Exceeds(d', st) && forall k :: k in keys ==> k in d'.files
    decreases |keys|
  {
    hide Put, Exceeds;
    if keys != [] {
      var d' := Put(d, st, keys[0], p).1;
      PutWritesThrough(d, st, keys[0], p);
      NoLimitWithoutInterval(d', st, keys[1..], p);
      FilesStay(d', st, keys[1..], p);
      assert keys[0] in d'.files;
    }
  }

  lemma PutWritesThrough(d: Disk, st: Strategy, key: string, p: Packet)
    requires st.interval == 0 && !Exceeds(d, st)
    ensures var d' := Put(d, st, key, p).1; !Exceeds(d', st) && key in d'.files
  {
    hide Encoder.Content;
    SumWraps(d.n + 1, d.inMemSize - 1);
  }

  function PutAll(d: Disk, st: Strategy, keys: seq<string>, p: Packet): Disk
    decreases |keys|
  {
    if keys == [] then d else PutAll(Put(d, st, keys[0], p).1, st, keys[1..], p)
  }

  lemma {:induction false} FilesStay(d: Disk, st: Strategy, keys: seq<string>, p: Packet)
    ensures d.files.Keys <= PutAll(d, st, keys, p).files.Keys
    decreases |keys|
  {
    hide Encoder.Content;
    if keys != [] {
      FilesStay(Put(d, st, keys[0], p).1, st, keys[1..], p);
    }
  }

  // What was stored can be loaded.

  datatype Item = Item(key: string, packet: Packet)

  function PutItems(d: Disk, st: Strategy, items: seq<Item>): Disk
    decreases |items|
  {
    if items == [] then d else PutItems(Put(d, st, items[0].key, items[0].packet).1, st, items[1..])
  }

  ghost predicate FreshItems(d: Disk, items: seq<Item>) {
    && (forall i :: 0 <= i < |items| ==> items[i].key !in d.files && items[i].key !in d.buffer)
    && (forall i, j :: 0 <= i < j < |items| ==> items[i].key != items[j].key)
  }

  ghost predicate Holds(buffer: map<string, Packet>, items: seq<Item>) {
    forall i :: 0 <= i < |items| ==> items[i].key in buffer && buffer[items[i].key] == items[i].packet
  }

  ghost predicate Extends(buffer: map<string, Packet>, buffer': map<string, Packet>) {
    forall k :: k in buffer ==> k in buffer' && buffer'[k] == buffer[k]
  }

  /** Nothing wraps or is dropped while these many packets are stored. */
  predicate HasRoom(d: Disk, st: Strategy, count: nat) {
    && d.inMemSize == |d.buffer| && d.n + d.inMemSize + count < UINT32_SIZE
    && (Limits(st) ==> d.n + d.inMemSize + count <= st.maxCount)
  }

  lemma PutBuffers(d: Disk, st: Strategy, items: seq<Item>)
    requires st.interval > 0 && items != [] && FreshItems(d, items) && HasRoom(d, st, |items|)
    ensures var d' := Put(d, st, items[0].key, items[0].packet).1;
      && d' == d.(buffer := d.buffer[items[0].key := items[0].packet], inMemSize := d.inMemSize + 1)
      && HasRoom(d', st, |items| - 1)
      && FreshItems(d', items[1..])
  {
    hide Put;
    var buffer := d.buffer[items[0].key := items[0].packet];
    PutCounts(d, st, items[0].key, items[0].packet);
    BufferGrows(d.buffer, items[0].key, items[0].packet);
    assert items[0].key !in d.files;
    var d' := d.(buffer := buffer, inMemSize := d.inMemSize + 1);
    forall i | 0 <= i < |items[1..]| ensures items[1..][i].key !in d'.files && items[1..][i].key !in d'.buffer {
      assert items[1..][i] == items[i + 1];
    }
  }

  lemma {:induction false} Buffered(d: Disk, st: Strategy, items: seq<Item>)
    requires st.interval > 0 && FreshItems(d, items) && HasRoom(d, st, |items|)
    ensures var d' := PutItems(d, st, items);
      && d'.files == d.files && d'.n == d.n
      && d'.inMemSize == |d'.buffer| == |d.buffer| + |items|
      && Holds(d'.buffer, items) && Extends(d.buffer, d'.buffer)
    decreases |items|
  {
    hide Put, FreshItems, Limits;
    if items != [] {
      var d' := Put(d, st, items[0].key, items[0].packet).1;
      var last := PutItems(d, st, items);
      PutBuffers(d, st, items);
      Buffered(d', st, items[1..]);
      assert last == PutItems(d', st, items[1..]);
      forall i | 0 <= i < |items| ensures items[i].key in last.buffer && last.buffer[items[i].key] == items[i].packet {
        if i > 0 {
          assert items[i] == items[1..][i - 1];
        }
      }
    }
  }

  /** Well-formed packets under new, distinct keys: the flush leaves nothing buffered, and each
      packet loads as it was stored. */
  lemma {:induction false} FlushedPacketsLoad(d: Disk, st: Strategy, items: seq<Item>)
    requires st.interval > 0 && FreshItems(d, items) && HasRoom(d, st, |items|)
    requires forall i :: 0 <= i < |items| ==> RoundTrip.WellFormed(items[i].packet)
    ensures var d' := Flush(PutItems(d, st, items));
      && d'.inMemSize == 0 && d'.buffer == map[]
      && forall i :: 0 <= i < |items| ==> Load(d', items[i].key) == Some(Codec.Plain(items[i].packet))
  {
    hide Encoder.Content, Load, RoundTrip.WellFormed, PutItems;
    Buffered(d, st, items);
    var full := PutItems(d, st, items);
    KeysSize(full.buffer);
    forall i | 0 <= i < |items|
      ensures Load(Flush(full), items[i].key) == Some(Codec.Plain(items[i].packet))
    {
      LoadsContent(Flush(full), items[i].key, items[i].packet);
    }
  }

  lemma LoadsContent(d: Disk, key: string, p: Packet)
    requires RoundTrip.WellFormed(p) && key in d.files && d.files[key] == Encoder.Content(p)
    ensures Load(d, key) == Some(Codec.Plain(p))
  {
    hide Codec.Decode, Encoder.Encode;
    RoundTrip.PacketRoundTrip(p, []);
    assert Encoder.Encode(p).value + [] == Encoder.Encode(p).value;
  }

  /** A packet is dropped exactly when files and buffer together have reached the limit, and then nothing
      changes; otherwise it fares as without a limit. */
  lemma {:induction false} DroppedIff(d: Disk, st: Strategy, key: string, p: Packet)
    ensures Put(d, st, key, p).0
            <==> !(st.maxCount > 0 && st.dropOnExceed && (d.n + d.inMemSize) % 0x1_0000_0000 >= st.maxCount)
    ensures var (ok, d') := Put(d, st, key, p);
      if ok then d' == Put(d, st.(dropOnExceed := false), key, p).1 else d' == d
  {
    hide Encoder.Content;
  }

  // What a key comes to, on disk and in the buffer.

  /** One key: what its file holds, and what waits to be written to it. */
  datatype Cell = Cell(file: Option<bytes>, pending: Option<Packet>)

  function CellOf(d: Disk, key: string): Cell {
    Cell(if key in d.files then Some(d.files[key]) else None, if key in d.buffer then Some(d.buffer[key]) else None)
  }

  /** An operation on one key alone. A packet for a file that is there counts only if it replaces; it is
      written at once, or with an interval at the next flush, if it is then the last one. */
  function Touch(c: Cell, st: Strategy, op: Op, key: string): Cell {
    match op
    case OpPut(k, p) =>
      if k != key || (c.file.Some? && !st.duplicateReplace) then c
      else if st.interval > 0 then c.(pending := Some(p))
      else c.(file := Some(Encoder.Content(p)))
    case OpFlush => if c.pending.Some? then Cell(Some(Encoder.Content(c.pending.value)), None) else c
  }

  function Touches(c: Cell, st: Strategy, ops: seq<Op>, key: string): Cell
    decreases |ops|
  {
    if ops == [] then c else Touches(Touch(c, st, ops[0], key), st, ops[1..], key)
  }

  /** Without a limit each key fares as if it were the only one, through any stores and flushes. */
  lemma {:induction false} RunTouches(t: Tally, st: Strategy, ops: seq<Op>, key: string)
    requires !Limits(st)
    ensures CellOf(Run(t, st, ops).disk, key) == Touches(CellOf(t.disk, key), st, ops, key)
    decreases |ops|
  {
    hide Apply, Touch, CellOf;
    if ops != [] {
      ApplyTouches(t, st, ops[0], key);
      RunTouches(Apply(t, st, ops[0]), st, ops[1..], key);
    }
  }

  lemma ApplyTouches(t: Tally, st: Strategy, op: Op, key: string)
    requires !Limits(st)
    ensures CellOf(Apply(t, st, op).disk, key) == Touch(CellOf(t.disk, key), st, op, key)
  {
    hide Encoder.Content;
  }

  /** The packet is on disk, or will be after the next flush. */
  predicate Settled(c: Cell, p: Packet) {
    c.pending == Some(p) || (c.pending == None && c.file == Some(Encoder.Content(p)))
  }

  lemma {:induction false} SettledStays(c: Cell, st: Strategy, key: string, p: Packet, ops: seq<Op>)
    requires Settled(c, p) && forall i :: 0 <= i < |ops| && ops[i].OpPut? ==> ops[i].key != key
    ensures Settled(Touches(c, st, ops, key), p)
    ensures c.pending == None ==> Touches(c, st, ops, key) == c
    decreases |ops|
  {
    hide Encoder.Content;
    if ops != [] {
      SettledStays(Touch(c, st, ops[0], key), st, key, p, ops[1..]);
    }
  }

  /** With replacing, what was stored last under a key is what its file holds after the next flush,
      or at once without an interval, and loads as it was stored. */
  lemma {:induction false} LastOneLoads(t: Tally, st: Strategy, key: string, p: Packet, later: seq<Op>)
    requires !Limits(st) && st.duplicateReplace && RoundTrip.WellFormed(p)
    requires st.interval > 0 || key !in t.disk.buffer
    requires forall i :: 0 <= i < |later| && later[i].OpPut? ==> later[i].key != key
    ensures var d := Run(t, st, [OpPut(key, p)] + later).disk;
      && Load(Flush(d), key) == Some(Codec.Plain(p))
      && (st.interval == 0 ==> Load(d, key) == Some(Codec.Plain(p)))
  {
    hide Encoder.Content, Load, RoundTrip.WellFormed, Run, Flush;
    var ops := [OpPut(key, p)] + later;
    assert ops[0] == OpPut(key, p) && ops[1..] == later;
    var d := Run(t, st, ops).disk;
    RunTouches(t, st, ops, key);
    SettledStays(Touch(CellOf(t.disk, key), st, ops[0], key), st, key, p, later);
    FlushTouches(d, st, key);
    if st.interval == 0 {
      LoadsContent(d, key, p);
    }
    LoadsContent(Flush(d), key, p);
  }

  lemma FlushTouches(d: Disk, st: Strategy, key: string)
    ensures CellOf(Flush(d), key) == Touch(CellOf(d, key), st, OpFlush, key)
  {
    hide Encoder.Content;
  }

  // When the worker comes to an end.

  function KeysIn(items: seq<Item>): set<string> {
    set i | 0 <= i < |items| :: items[i].key
  }

  predicate KeysDiffer(items: seq<Item>) {
    forall i, j :: 0 <= i < j < |items| ==> items[i].key != items[j].key
  }

  /** None of the packets is found on disk or dropped. */
  predicate AllTaken(d: Disk, st: Strategy, items: seq<Item>) {
    && (forall i :: 0 <= i < |items| ==> items[i].key !in d.files)
    && d.inMemSize + |items| < UINT32_SIZE
    && (Limits(st) ==> d.n + d.inMemSize + |items| <= st.maxCount)
  }

  lemma {:induction false} PutItemsCount(d: Disk, st: Strategy, items: seq<Item>)
    requires st.interval > 0 && AllTaken(d, st, items)
    ensures var d' := PutItems(d, st, items);
      && d'.files == d.files && d'.n == d.n && d'.inMemSize == d.inMemSize + |items|
      && d'.buffer.Keys == d.buffer.Keys + KeysIn(items)
    decreases |items|
  {
    hide Put, Limits;
    if items == [] {
      assert KeysIn(items) == {};
    } else {
      var key, rest := items[0].key, items[1..];
      PutCounts(d, st, key, items[0].packet);
      FirstTaken(d, st, items);
      PutItemsCount(Put(d, st, key, items[0].packet).1, st, rest);
      KeysInFirst(items);
    }
  }

  lemma FirstTaken(d: Disk, st: Strategy, items: seq<Item>)
    requires st.interval > 0 && items != [] && AllTaken(d, st, items)
    ensures Takes(d, st, items[0].key) && AllTaken(Put(d, st, items[0].key, items[0].packet).1, st, items[1..])
  {
    hide Put, Encoder.Content;
    PutCounts(d, st, items[0].key, items[0].packet);
    assert items[0].key !in d.files;
    forall i | 0 <= i < |items[1..]| ensures items[1..][i].key !in d.files {
      assert items[1..][i] == items[i + 1];
    }
  }

  lemma KeysInFirst(items: seq<Item>)
    requires items != []
    ensures KeysIn(items) == {items[0].key} + KeysIn(items[1..])
  {
    var rest := items[1..];
    forall key ensures key in KeysIn(items) <==> key == items[0].key || key in KeysIn(rest) {
      if key in KeysIn(items) && key != items[0].key {
        var i :| 0 <= i < |items| && items[i].key == key;
        assert rest[i - 1].key == key;
      }
      if key in KeysIn(rest) {
        var i :| 0 <= i < |rest| && rest[i].key == key;
        assert items[i + 1].key == key;
      }
    }
  }

  /** A list has as many keys as items exactly if they differ. */
  lemma {:induction false} KeyCount(items: seq<Item>)
    ensures |KeysIn(items)| <= |items|
    ensures |KeysIn(items)| == |items| <==> KeysDiffer(items)
  {
    if items == [] {
      assert KeysIn(items) == {};
    } else {
      KeyCount(items[1..]);
      KeysInFirst(items);
      assert KeysDiffer(items) <==> KeysDiffer(items[1..]) && items[0].key !in KeysIn(items[1..]) by {
        DifferFirst(items);
      }
    }
  }

  lemma DifferFirst(items: seq<Item>)
    requires items != []
    ensures KeysDiffer(items) <==> KeysDiffer(items[1..]) && items[0].key !in KeysIn(items[1..])
  {
    var rest := items[1..];
    if KeysDiffer(rest) && items[0].key !in KeysIn(rest) {
      forall i, j | 0 <= i < j < |items| ensures items[i].key != items[j].key {
        assert items[j] == rest[j - 1];
        assert i > 0 ==> items[i] == rest[i - 1];
      }
    }
    if KeysDiffer(items) {
      forall i, j | 0 <= i < j < |rest| ensures rest[i].key != rest[j].key {
        assert rest[i] == items[i + 1] && rest[j] == items[j + 1];
      }
      forall i | 0 <= i < |rest| ensures rest[i].key != items[0].key {
        assert rest[i] == items[i + 1];
      }
    }
  }

  /** Rounds of the worker, which starts another as long as packets count as buffered. */
  function Rounds(d: Disk, k: nat): Disk
    decreases k
  {
    if k == 0 then d else Rounds(Flush(d), k - 1)
  }

  /** Whatever was buffered from an empty buffer: the worker comes to an end, in fact after one
      round, if and only if the keys differ. Otherwise the counter stays up with nothing left to
      write, and the worker calls itself for ever. */
  lemma {:induction false} WorkerEndsIff(d: Disk, st: Strategy, items: seq<Item>)
    requires st.interval > 0 && d.buffer == map[] && d.inMemSize == 0 && AllTaken(d, st, items)
    ensures var full := PutItems(d, st, items);
      && (Flush(full).inMemSize == 0 <==> KeysDiffer(items))
      && ((exists k: nat :: k > 0 && Rounds(full, k).inMemSize == 0) <==> KeysDiffer(items))
  {
    hide PutItems, Flush, Rounds, KeysDiffer, KeysIn, AllTaken;
    FlushLeaves(d, st, items);
    KeyCount(items);
    OneRoundTells(PutItems(d, st, items));
  }

  /** A flush leaves as many packets counted as keys were stored again. */
  lemma FlushLeaves(d: Disk, st: Strategy, items: seq<Item>)
    requires st.interval > 0 && d.buffer == map[] && d.inMemSize == 0 && AllTaken(d, st, items)
    ensures Flush(PutItems(d, st, items)).inMemSize == |items| - |KeysIn(items)|
  {
    hide PutItems, Flush, KeysIn, AllTaken, KeysDiffer;
    var full := PutItems(d, st, items);
    FewItems(d, st, items);
    PutItemsCount(d, st, items);
    KeyCount(items);
    FlushCounts(full);
    KeysSize(full.buffer);
    assert d.buffer.Keys + KeysIn(items) == KeysIn(items);
    WrapsNot(full.inMemSize - |full.buffer|);
  }

  lemma WrapsNot(n: int)
    requires 0 <= n < UINT32_SIZE
    ensures n % UINT32_SIZE == n
  {
  }

  lemma FewItems(d: Disk, st: Strategy, items: seq<Item>)
    requires AllTaken(d, st, items)
    ensures |items| < UINT32_SIZE
  {
  }

  lemma OneRoundTells(d: Disk)
    ensures (exists k: nat :: k > 0 && Rounds(d, k).inMemSize == 0) <==> Flush(d).inMemSize == 0
  {
    FlushCounts(d);
    hide Flush;
    forall k: nat | k > 0 ensures Rounds(d, k) == Flush(d) {
      RoundsStay(Flush(d), k - 1);
    }
    assert Rounds(d, 1) == Flush(d);
  }

  lemma {:induction false} RoundsStay(d: Disk, k: nat)
    requires d.buffer == map[]
    ensures Rounds(d, k) == d
  {
    hide Flush;
    if k > 0 {
      FlushNothing(d);
      RoundsStay(d, k - 1);
    }
  }

  lemma FlushNothing(d: Disk)
    requires d.buffer == map[]
    ensures Flush(d) == d
  {
    FlushNone(d);
    assert d.buffer.Keys == {};
  }
}
