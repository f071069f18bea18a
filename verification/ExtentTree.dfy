/**
 * The bounded reader of an ext4 extent tree: a recursive walk over arbitrary device bytes, followed
 * by the coverage and disjointness checks on the extents it collected.
 */
module ExtentTree {
  import opened Basics

  type Byte = x: int | 0 <= x < 256

  type Device = seq<seq<Byte>>

  /** `length` logical blocks from `logical` on are stored from block `physical` on. */
  datatype Extent = Extent(logical: nat, physical: nat, length: nat)

  datatype Node = Node(depth: nat, entries: nat, generation: nat, maximum: nat, source: Option<nat>)

  const MAGIC := 0xF30A
  const MAX_DEPTH: nat := 2
  const MAX_NODES := 8
  const MAX_EXTENTS := 64
  const MAX_READS := 16

  /**
   * Reads a reader may have served before the walk, so that the walk never meets the limit; the
   * program's has served two.
   */
  const EARLIER_READS := MAX_READS - MAX_NODES
  const MAX_LENGTH := 0x8000

  /* ---------- little-endian fields ---------- */

  function At(raw: seq<Byte>, i: nat): nat {
    if i < |raw| then raw[i] else 0
  }

  function U16(raw: seq<Byte>, i: nat): nat {
    At(raw, i) + 0x100 * At(raw, i + 1)
  }

  function U32(raw: seq<Byte>, i: nat): nat {
    U16(raw, i) + 0x1_0000 * U16(raw, i + 2)
  }

  function Entries(raw: seq<Byte>): nat {
    U16(raw, 2)
  }

  function Logical(raw: seq<Byte>, i: nat): nat {
    U32(raw, 12 + 12 * i)
  }

  function ExtentAt(raw: seq<Byte>, i: nat): Extent {
    Extent(Logical(raw, i),
           0x1_0000_0000 * U16(raw, 12 + 12 * i + 6) + U32(raw, 12 + 12 * i + 8),
           U16(raw, 12 + 12 * i + 4))
  }

  function ChildBlock(raw: seq<Byte>, i: nat): nat {
    U32(raw, 12 + 12 * i + 4) + 0x1_0000_0000 * U16(raw, 12 + 12 * i + 8)
  }

  function Child(dev: Device, raw: seq<Byte>, i: nat): seq<Byte> {
    if ChildBlock(raw, i) < |dev| then dev[ChildBlock(raw, i)] else []
  }

  /* ---------- what a tree denotes ---------- */

  predicate HeaderOk(raw: seq<Byte>, depth: nat) {
    && |raw| >= 12
    && U16(raw, 0) == MAGIC && U16(raw, 6) == depth
    && 0 < Entries(raw) <= U16(raw, 4) == (|raw| - 12) / 12
  }

  predicate ExtentOk(dev: Device, e: Extent) {
    0 < e.length <= MAX_LENGTH && e.physical != 0 && e.physical + e.length <= |dev|
  }

  predicate IndexOk(dev: Device, raw: seq<Byte>, i: nat) {
    U16(raw, 12 + 12 * i + 10) == 0 && 0 < ChildBlock(raw, i) < |dev|
  }

  /** The first `n` entries are well formed, and so are the nodes below them. */
  predicate EntriesOk(dev: Device, raw: seq<Byte>, depth: nat, n: nat)
    decreases depth, n, 0
  {
    n == 0 || (EntriesOk(dev, raw, depth, n - 1) && EntryOk(dev, raw, depth, n - 1))
  }

  /** Keys ascend strictly; a leaf entry is a usable extent, an index entry points to a node that starts at its key. */
  predicate EntryOk(dev: Device, raw: seq<Byte>, depth: nat, i: nat)
    decreases depth, i, 1
  {
    && (i > 0 ==> Logical(raw, i - 1) < Logical(raw, i))
    && if depth == 0 then ExtentOk(dev, ExtentAt(raw, i))
       else
         && IndexOk(dev, raw, i)
         && NodeOk(dev, Child(dev, raw, i), depth - 1)
         && Logical(Child(dev, raw, i), 0) == Logical(raw, i)
  }

  predicate NodeOk(dev: Device, raw: seq<Byte>, depth: nat)
    decreases depth, Entries(raw), 1
  {
    HeaderOk(raw, depth) && EntriesOk(dev, raw, depth, Entries(raw))
  }

  /** The extents under the first `n` entries, left to right. */
  function LeavesUpTo(dev: Device, raw: seq<Byte>, depth: nat, n: nat): seq<Extent>
    decreases depth, n, 0
  {
    if n == 0 then [] else LeavesUpTo(dev, raw, depth, n - 1) + LeavesOf(dev, raw, depth, n - 1)
  }

  function LeavesOf(dev: Device, raw: seq<Byte>, depth: nat, i: nat): seq<Extent>
    decreases depth, i, 1
  {
    if depth == 0 then [ExtentAt(raw, i)] else Leaves(dev, Child(dev, raw, i), depth - 1)
  }

  function Leaves(dev: Device, raw: seq<Byte>, depth: nat): seq<Extent>
    decreases depth, Entries(raw), 1
  {
    LeavesUpTo(dev, raw, depth, Entries(raw))
  }

  function NodeOf(raw: seq<Byte>, source: Option<nat>): Node {
    Node(U16(raw, 6), Entries(raw), U32(raw, 8), U16(raw, 4), source)
  }

  /** The nodes below the first `n` entries, in the order the walk visits them. */
  function NodesUpTo(dev: Device, raw: seq<Byte>, depth: nat, n: nat): seq<Node>
    decreases depth, n, 0
  {
    if n == 0 then [] else NodesUpTo(dev, raw, depth, n - 1) + NodesOf(dev, raw, depth, n - 1)
  }

  function NodesOf(dev: Device, raw: seq<Byte>, depth: nat, i: nat): seq<Node>
    decreases depth, i, 1
  {
    if depth == 0 then []
    else [NodeOf(Child(dev, raw, i), Some(ChildBlock(raw, i)))] + Nodes(dev, Child(dev, raw, i), depth - 1)
  }

  function Nodes(dev: Device, raw: seq<Byte>, depth: nat): seq<Node>
    decreases depth, Entries(raw), 1
  {
    NodesUpTo(dev, raw, depth, Entries(raw))
  }

  /** The blocks the nodes were read from. */
  function Sources(nodes: seq<Node>): seq<nat> {
    if nodes == [] then []
    else
      Sources(nodes[..|nodes| - 1])
      + (if nodes[|nodes| - 1].source.Some? then [nodes[|nodes| - 1].source.value] else [])
  }

  /** What the walk may still collect: node, extent and block budgets, and no block twice. */
  ghost predicate Room(nodes: nat, extents: nat, seen: set<nat>, below: seq<Node>, leaves: seq<Extent>) {
    && nodes + |below| <= MAX_NODES
    && extents + |leaves| <= MAX_EXTENTS
    && Distinct(Sources(below)) && Elements(Sources(below)) !! seen
  }

  /* ---------- when the reader accepts ---------- */

  /** Where the logical blocks of the first `n` extents end. */
  function Total(s: seq<Extent>, n: nat): nat
    requires n <= |s|
  {
    if n == 0 then 0 else Total(s, n - 1) + s[n - 1].length
  }

  lemma TotalGrows(s: seq<Extent>, n: nat)
    requires n <= |s|
    ensures Total(s, 0) == 0 && (n < |s| ==> Total(s, n + 1) == Total(s, n) + s[n].length)
  {
  }

  predicate Contiguous(s: seq<Extent>) {
    forall i: nat :: i < |s| ==> s[i].logical == Total(s, i)
  }

  predicate Overlap(a: Extent, b: Extent) {
    b.physical < a.physical + a.length && a.physical < b.physical + b.length
  }

  predicate ClearOf(s: seq<Extent>, i: nat)
    requires i < |s|
  {
    forall j: nat :: j < i ==> !Overlap(s[j], s[i])
  }

  predicate Disjoint(s: seq<Extent>) {
    forall i: nat :: i < |s| ==> ClearOf(s, i)
  }

  predicate Within(e: Extent, block: nat) {
    e.physical <= block < e.physical + e.length
  }

  predicate Apart(s: seq<Extent>, blocks: set<nat>) {
    forall e, b :: e in s && b in blocks ==> !Within(e, b)
  }

  ghost function TreeBlocks(dev: Device, blockMap: seq<Byte>): set<nat> {
    Elements(Sources(Nodes(dev, blockMap, U16(blockMap, 6))))
  }

  /** A well-formed tree within its bounds, with no block of it used twice. */
  ghost predicate Bounded(dev: Device, blockMap: seq<Byte>) {
    var depth := U16(blockMap, 6);
    && |blockMap| == 60 && depth <= MAX_DEPTH && NodeOk(dev, blockMap, depth)
    && Room(1, 0, {}, Nodes(dev, blockMap, depth), Leaves(dev, blockMap, depth))
  }

  ghost predicate Accepted(dev: Device, blockMap: seq<Byte>, journalBlocks: nat) {
    var extents := Leaves(dev, blockMap, U16(blockMap, 6));
    && Bounded(dev, blockMap)
    && Contiguous(extents) && Disjoint(extents) && Total(extents, |extents|) == journalBlocks
    && Apart(extents, TreeBlocks(dev, blockMap))
  }

  /* ---------- prefixes ---------- */

  lemma {:induction false} LeavesGrow(dev: Device, raw: seq<Byte>, depth: nat, m: nat, n: nat)
    requires m <= n
    ensures LeavesUpTo(dev, raw, depth, m) <= LeavesUpTo(dev, raw, depth, n)
  {
    hide LeavesOf;
    if m < n {
      LeavesGrow(dev, raw, depth, m, n - 1);
    }
  }

  lemma {:induction false} NodesGrow(dev: Device, raw: seq<Byte>, depth: nat, m: nat, n: nat)
    requires m <= n
    ensures NodesUpTo(dev, raw, depth, m) <= NodesUpTo(dev, raw, depth, n)
  {
    hide NodesOf;
    if m < n {
      NodesGrow(dev, raw, depth, m, n - 1);
    }
  }

  lemma {:induction false} EarlierEntriesOk(dev: Device, raw: seq<Byte>, depth: nat, m: nat, n: nat)
    requires m <= n && EntriesOk(dev, raw, depth, n)
    ensures EntriesOk(dev, raw, depth, m)
  {
    if m < n {
      EarlierEntriesOk(dev, raw, depth, m, n - 1);
    }
  }

  lemma {:induction false} SourcesConcat(a: seq<Node>, b: seq<Node>)
    ensures Sources(a + b) == Sources(a) + Sources(b)
  {
    if b == [] {
      assert a + b == a;
    } else {
      SourcesConcat(a, b[..|b| - 1]);
      assert (a + b)[..|a + b| - 1] == a + b[..|b| - 1];
    }
  }

  lemma DistinctConcat<T>(a: seq<T>, b: seq<T>)
    ensures Distinct(a + b) <==> Distinct(a) && Distinct(b) && Elements(a) !! Elements(b)
  {
    var all := a + b;
    if Distinct(all) {
      forall i, j | 0 <= i < j < |b| ensures b[i] != b[j] {
        assert all[|a| + i] != all[|a| + j];
      }
      forall i, j | 0 <= i < j < |a| ensures a[i] != a[j] {
        assert all[i] != all[j];
      }
      forall x | x in a ensures x !in b {
        var i :| 0 <= i < |a| && a[i] == x;
        forall j | 0 <= j < |b| ensures b[j] != x {
          assert all[i] != all[|a| + j];
        }
      }
    }
    if Distinct(a) && Distinct(b) && Elements(a) !! Elements(b) {
      forall i, j | 0 <= i < j < |all| ensures all[i] != all[j] {
        assert i < |a| ==> all[i] in Elements(a);
        assert j >= |a| ==> all[j] in Elements(b);
      }
    }
  }

  /** A walk that has room for everything has room for every prefix of it. */
  lemma RoomPrefix(nodes: nat, extents: nat, seen: set<nat>, a: seq<Node>, b: seq<Node>, la: seq<Extent>,
                   lb: seq<Extent>)
    requires a <= b && la <= lb && Room(nodes, extents, seen, b, lb)
    ensures Room(nodes, extents, seen, a, la)
  {
    var rest := b[|a|..];
    assert b == a + rest;
    SourcesConcat(a, rest);
    DistinctConcat(Sources(a), Sources(rest));
    ElementsConcat(Sources(a), Sources(rest));
  }

  lemma SourcesOfChild(a: seq<Node>, child: Node, b: seq<Node>)
    requires child.source.Some?
    ensures Sources(a + ([child] + b)) == Sources(a) + ([child.source.value] + Sources(b))
    ensures Elements(Sources(a + ([child] + b))) == Elements(Sources(a)) + {child.source.value} + Elements(Sources(b))
  {
    var block := child.source.value;
    SourcesConcat(a, [child] + b);
    SourcesConcat([child], b);
    assert Sources([child]) == [block] by {
      assert [child][..0] == [];
    }
    ElementsConcat(Sources(a), [block] + Sources(b));
    ElementsConcat([block], Sources(b));
    assert Elements([block]) == {block};
  }

  lemma DistinctWithMiddle<T>(a: seq<T>, x: T, b: seq<T>)
    ensures Distinct(a + ([x] + b)) <==>
              Distinct(a) && Distinct(b) && x !in Elements(a) && Elements(b) !! Elements(a) + {x}
  {
    DistinctConcat(a, [x] + b);
    DistinctConcat([x], b);
    ElementsConcat([x], b);
    assert Elements([x]) == {x};
  }

  /** Room for the walk so far and one more child node is room for the child after that walk. */
  lemma RoomForChild(nodes: nat, extents: nat, seen: set<nat>, a: seq<Node>, la: seq<Extent>, child: Node, b: seq<Node>,
                     lb: seq<Extent>)
    requires child.source.Some? && Room(nodes, extents, seen, a, la)
    ensures Room(nodes, extents, seen, a + ([child] + b), la + lb) <==>
              (child.source.value !in seen + Elements(Sources(a))
               && Room(nodes + |a| + 1, extents + |la|, seen + Elements(Sources(a)) + {child.source.value}, b, lb))
  {
    SourcesOfChild(a, child, b);
    DistinctWithMiddle(Sources(a), child.source.value, Sources(b));
  }

  /* ---------- the parser ---------- */

  class ExtentParser {
    const device: Device
    var extents: seq<Extent>
    var nodes: seq<Node>
    var treeBlocks: set<nat>
    var readCount: nat

    constructor (device: Device)
      ensures this.device == device && extents == [] && nodes == [] && treeBlocks == {} && readCount == 0
    {
      this.device := device;
      extents, nodes, treeBlocks, readCount := [], [], {}, 0;
    }

    /** What a successful walk of a node with these entries adds. */
    ghost predicate Collected(extents0: seq<Extent>, nodes0: seq<Node>, seen: set<nat>, raw: seq<Byte>, depth: nat,
                              n: nat)
      reads this
    {
      && extents == extents0 + LeavesUpTo(device, raw, depth, n)
      && nodes == nodes0 + NodesUpTo(device, raw, depth, n)
      && treeBlocks == seen + Elements(Sources(NodesUpTo(device, raw, depth, n)))
    }

    /** A metadata read, within the budget. */
    method ReadBlock(block: nat) returns (raw: Option<seq<Byte>>)
      modifies this`readCount
      ensures raw.Some? <==> block < |device| && old(readCount) < MAX_READS
      ensures raw.Some? ==> raw.value == device[block] && readCount == old(readCount) + 1
    {
      if block >= |device| || readCount >= MAX_READS {
        return None;
      }
      readCount := readCount + 1;
      return Some(device[block]);
    }

    /** The walk of the node's first `n` entries fits the budgets left after `extents0`, `nodes0` and `seen`. */
    ghost predicate Fits(extents0: seq<Extent>, nodes0: seq<Node>, seen: set<nat>, raw: seq<Byte>, depth: nat, n: nat) {
      Room(|nodes0|, |extents0|, seen, NodesUpTo(device, raw, depth, n), LeavesUpTo(device, raw, depth, n))
    }

    lemma EarlierFits(extents0: seq<Extent>, nodes0: seq<Node>, seen: set<nat>, raw: seq<Byte>, depth: nat, m: nat,
                      n: nat)
      requires m <= n && Fits(extents0, nodes0, seen, raw, depth, n)
      ensures Fits(extents0, nodes0, seen, raw, depth, m)
    {
      LeavesGrow(device, raw, depth, m, n);
      NodesGrow(device, raw, depth, m, n);
      RoomPrefix(|nodes0|, |extents0|, seen, NodesUpTo(device, raw, depth, m), NodesUpTo(device, raw, depth, n),
                 LeavesUpTo(device, raw, depth, m), LeavesUpTo(device, raw, depth, n));
    }

    lemma NothingCollected(extents0: seq<Extent>, nodes0: seq<Node>, seen: set<nat>, raw: seq<Byte>, depth: nat)
      requires |nodes0| <= MAX_NODES && |extents0| <= MAX_EXTENTS
      ensures Fits(extents0, nodes0, seen, raw, depth, 0)
      ensures extents0 + LeavesUpTo(device, raw, depth, 0) == extents0
      ensures nodes0 + NodesUpTo(device, raw, depth, 0) == nodes0
      ensures seen + Elements(Sources(NodesUpTo(device, raw, depth, 0))) == seen
    {
    }

    /** A leaf entry needs room for one more extent. */
    lemma LeafFits(extents0: seq<Extent>, nodes0: seq<Node>, seen: set<nat>, raw: seq<Byte>, i: nat)
      requires Fits(extents0, nodes0, seen, raw, 0, i)
      ensures Fits(extents0, nodes0, seen, raw, 0, i + 1) <==>
                |extents0 + LeavesUpTo(device, raw, 0, i)| < MAX_EXTENTS
    {
      hide ExtentAt, Sources;
      assert NodesUpTo(device, raw, 0, i + 1) == NodesUpTo(device, raw, 0, i);
      assert LeavesUpTo(device, raw, 0, i + 1) == LeavesUpTo(device, raw, 0, i) + [ExtentAt(raw, i)];
    }

    /** The walk up to and including an index entry, piece by piece. */
    lemma ChildCollected(extents0: seq<Extent>, nodes0: seq<Node>, seen: set<nat>, raw: seq<Byte>, depth: nat, i: nat)
      requires depth > 0
      ensures var before := NodesUpTo(device, raw, depth, i);
              var block := ChildBlock(raw, i);
              var child := Child(device, raw, i);
              && extents0 + LeavesUpTo(device, raw, depth, i + 1) ==
                 extents0 + LeavesUpTo(device, raw, depth, i) + Leaves(device, child, depth - 1)
              && nodes0 + NodesUpTo(device, raw, depth, i + 1) ==
                 nodes0 + before + [NodeOf(child, Some(block))] + Nodes(device, child, depth - 1)
              && seen + Elements(Sources(NodesUpTo(device, raw, depth, i + 1))) ==
                 seen + Elements(Sources(before)) + {block} + Elements(Sources(Nodes(device, child, depth - 1)))
    {
      hide Child, ChildBlock, Sources;
      var child := Child(device, raw, i);
      var below := [NodeOf(child, Some(ChildBlock(raw, i)))] + Nodes(device, child, depth - 1);
      assert NodesUpTo(device, raw, depth, i + 1) == NodesUpTo(device, raw, depth, i) + below;
      assert LeavesUpTo(device, raw, depth, i + 1) ==
               LeavesUpTo(device, raw, depth, i) + Leaves(device, child, depth - 1);
      SourcesOfChild(NodesUpTo(device, raw, depth, i), NodeOf(child, Some(ChildBlock(raw, i))),
                     Nodes(device, child, depth - 1));
    }

    /** An index entry needs a block not seen yet, and room for the node in it. */
    lemma ChildFits(extents0: seq<Extent>, nodes0: seq<Node>, seen: set<nat>, raw: seq<Byte>, depth: nat, i: nat)
      requires depth > 0 && Fits(extents0, nodes0, seen, raw, depth, i)
      ensures var before := NodesUpTo(device, raw, depth, i);
              var blocks := seen + Elements(Sources(before));
              var child := Child(device, raw, i);
              Fits(extents0, nodes0, seen, raw, depth, i + 1) <==>
                (ChildBlock(raw, i) !in blocks
                 && Fits(extents0 + LeavesUpTo(device, raw, depth, i),
                         nodes0 + before + [NodeOf(child, Some(ChildBlock(raw, i)))],
                         blocks + {ChildBlock(raw, i)}, child, depth - 1, Entries(child)))
    {
      hide Child, ChildBlock, Sources;
      var child := Child(device, raw, i);
      assert LeavesUpTo(device, raw, depth, i + 1) ==
               LeavesUpTo(device, raw, depth, i) + Leaves(device, child, depth - 1);
      assert NodesOf(device, raw, depth, i) ==
               [NodeOf(child, Some(ChildBlock(raw, i)))] + Nodes(device, child, depth - 1);
      assert NodesUpTo(device, raw, depth, i + 1) == NodesUpTo(device, raw, depth, i) + NodesOf(device, raw, depth, i);
      RoomForChild(|nodes0|, |extents0|, seen, NodesUpTo(device, raw, depth, i), LeavesUpTo(device, raw, depth, i),
                   NodeOf(child, Some(ChildBlock(raw, i))), Nodes(device, child, depth - 1), Leaves(device, child,
                          depth - 1));
    }

    method ParseLeafEntry(raw: seq<Byte>, i: nat, ghost extents0: seq<Extent>, ghost nodes0: seq<Node>,
                          ghost seen: set<nat>)
      returns (ok: bool)
      requires (i > 0 ==> Logical(raw, i - 1) < Logical(raw, i))
      requires Collected(extents0, nodes0, seen, raw, 0, i) && Fits(extents0, nodes0, seen, raw, 0, i)
      modifies this`extents
      ensures ok <==> EntryOk(device, raw, 0, i) && Fits(extents0, nodes0, seen, raw, 0, i + 1)
      ensures ok ==> Collected(extents0, nodes0, seen, raw, 0, i + 1)
    {
      hide Sources, Logical, U16, U32;
      LeafFits(extents0, nodes0, seen, raw, i);
      var extent := ExtentAt(raw, i);
      if !ExtentOk(device, extent) || |extents| >= MAX_EXTENTS {
        return false;
      }
      extents := extents + [extent];
      assert NodesUpTo(device, raw, 0, i + 1) == NodesUpTo(device, raw, 0, i);
      assert extents0 + LeavesUpTo(device, raw, 0, i + 1) == extents0 + LeavesUpTo(device, raw, 0, i) + [extent];
      return true;
    }

    method ParseIndexEntry(raw: seq<Byte>, depth: nat, i: nat, ghost extents0: seq<Extent>, ghost nodes0: seq<Node>,
                           ghost seen: set<nat>)
      returns (ok: bool)
      requires depth > 0 && (i > 0 ==> Logical(raw, i - 1) < Logical(raw, i))
      requires Collected(extents0, nodes0, seen, raw, depth, i) && Fits(extents0, nodes0, seen, raw, depth, i)
      requires readCount <= |nodes| + EARLIER_READS - 1 && |nodes| <= MAX_NODES && |extents| <= MAX_EXTENTS
      modifies this
      ensures ok <==> EntryOk(device, raw, depth, i) && Fits(extents0, nodes0, seen, raw, depth, i + 1)
      ensures ok ==> Collected(extents0, nodes0, seen, raw, depth, i + 1)
      ensures ok ==> readCount + old(|nodes|) == old(readCount) + |nodes|
      decreases depth, 0
    {
      hide Sources, Logical, U16, U32, NodeOf, HeaderOk, EntriesOk, LeavesUpTo, NodesUpTo, Room;
      ChildCollected(extents0, nodes0, seen, raw, depth, i);
      ChildFits(extents0, nodes0, seen, raw, depth, i);
      var block := ChildBlock(raw, i);
      if !IndexOk(device, raw, i) || block in treeBlocks {
        return false;
      }
      treeBlocks := treeBlocks + {block};
      var child := ReadBlock(block);
      if child == None {
        return false;
      }
      var first := ParseNode(child.value, depth - 1, Some(block));
      ok := first.Some? && first.value == Logical(raw, i);
    }

    /** Accepts exactly the well-formed nodes that fit the budgets, and collects what they denote. */
    method ParseNode(raw: seq<Byte>, depth: nat, source: Option<nat>) returns (first: Option<nat>)
      requires readCount <= |nodes| + EARLIER_READS && |extents| <= MAX_EXTENTS
      modifies this
      ensures first.Some? <==>
                (NodeOk(device, raw, depth)
                 && Fits(old(extents), old(nodes) + [NodeOf(raw, source)], old(treeBlocks), raw, depth, Entries(raw)))
      ensures first.Some? ==>
                (first.value == Logical(raw, 0) && readCount + old(|nodes|) + 1 == old(readCount) + |nodes|
                 && Collected(old(extents), old(nodes) + [NodeOf(raw, source)], old(treeBlocks),
                              raw, depth, Entries(raw)))
      decreases depth, 1
    {
      hide LeavesUpTo, NodesUpTo, NodeOf, Logical, Sources, Distinct;
      if !HeaderOk(raw, depth) || |nodes| >= MAX_NODES {
        return None;
      }
      nodes := nodes + [NodeOf(raw, source)];
      ghost var extents0, nodes0, seen := extents, nodes, treeBlocks;
      NothingCollected(extents0, nodes0, seen, raw, depth);
      var ordinal := 0;
      while ordinal < Entries(raw)
        invariant ordinal <= Entries(raw)
        invariant EntriesOk(device, raw, depth, ordinal)
        invariant Collected(extents0, nodes0, seen, raw, depth, ordinal)
        invariant readCount + old(|nodes|) + 1 == old(readCount) + |nodes|
        invariant Fits(extents0, nodes0, seen, raw, depth, ordinal)
      {
        if EntriesOk(device, raw, depth, Entries(raw)) {
          EarlierEntriesOk(device, raw, depth, ordinal + 1, Entries(raw));
        }
        if Fits(extents0, nodes0, seen, raw, depth, Entries(raw)) {
          EarlierFits(extents0, nodes0, seen, raw, depth, ordinal + 1, Entries(raw));
        }
        if ordinal > 0 && Logical(raw, ordinal) <= Logical(raw, ordinal - 1) {
          return None;
        }
        var ok;
        if depth == 0 {
          ok := ParseLeafEntry(raw, ordinal, extents0, nodes0, seen);
        } else {
          ok := ParseIndexEntry(raw, depth, ordinal, extents0, nodes0, seen);
        }
        if !ok {
          return None;
        }
        ordinal := ordinal + 1;
      }
      return Some(Logical(raw, 0));
    }

    /** The whole reader: the walk, then exact coverage, disjoint extents and no tree block inside one. */
    method Map(blockMap: seq<Byte>, journalBlocks: nat) returns (mapping: Option<seq<Extent>>)
      requires extents == [] && nodes == [] && treeBlocks == {} && readCount <= EARLIER_READS
      modifies this
      ensures mapping.Some? <==> Accepted(device, blockMap, journalBlocks)
      ensures mapping.Some? ==> mapping.value == Leaves(device, blockMap, U16(blockMap, 6))
      ensures mapping.Some? ==>
                && nodes == [NodeOf(blockMap, None)] + Nodes(device, blockMap, U16(blockMap, 6))
                && readCount + 1 == old(readCount) + |nodes| && |nodes| <= MAX_NODES && |extents| <= MAX_EXTENTS
    {
      hide U16, NodeOf, LeavesUpTo, NodesUpTo, NodeOk, Sources, Apart, Contiguous, Disjoint, Total, Distinct;
      if |blockMap| != 60 {
        return None;
      }
      var depth := U16(blockMap, 6);
      if depth > MAX_DEPTH {
        return None;
      }
      var first := ParseNode(blockMap, depth, None);
      if first == None {
        return None;
      }
      assert extents == Leaves(device, blockMap, depth);
      assert treeBlocks == TreeBlocks(device, blockMap);
      var covered := CheckExtents(extents);
      if covered != Some(journalBlocks) || !Apart(extents, treeBlocks) {
        return None;
      }
      return Some(extents);
    }

    /** The extent at `i` overlaps none of those before it. */
    method CheckClear(s: seq<Extent>, i: nat) returns (ok: bool)
      requires i < |s|
      ensures ok <==> ClearOf(s, i)
    {
      hide Overlap;
      var j := 0;
      while j < i
        invariant j <= i && forall k: nat :: k < j ==> !Overlap(s[k], s[i])
      {
        if Overlap(s[j], s[i]) {
          return false;
        }
        j := j + 1;
      }
      return true;
    }

    /** Walk the extents in order: each starts where the last one ended, and overlaps none before it. */
    method CheckExtents(s: seq<Extent>) returns (covered: Option<nat>)
      ensures covered.Some? <==> Contiguous(s) && Disjoint(s)
      ensures covered.Some? ==> covered.value == Total(s, |s|)
    {
      hide ClearOf, Total;
      TotalGrows(s, 0);
      var expected := 0;
      var i := 0;
      while i < |s|
        invariant i <= |s| && expected == Total(s, i)
        invariant forall k: nat :: k < i ==> s[k].logical == Total(s, k)
        invariant forall k: nat :: k < i ==> ClearOf(s, k)
      {
        if s[i].logical != expected {
          return None;
        }
        TotalGrows(s, i);
        expected := expected + s[i].length;
        var clear := CheckClear(s, i);
        if !clear {
          return None;
        }
        i := i + 1;
      }
      return Some(expected);
    }
  }

  /* ---------- what acceptance means ---------- */

  /** The extent stores this logical block. */
  predicate Covers(e: Extent, l: nat) {
    e.logical <= l < e.logical + e.length
  }

  function Place(e: Extent, l: nat): nat
    requires Covers(e, l)
  {
    e.physical + (l - e.logical)
  }

  ghost predicate Covered(s: seq<Extent>, l: nat) {
    exists i: nat :: i < |s| && Covers(s[i], l)
  }

  /** Logical blocks below `n`, and no others, are stored, each in one extent. */
  ghost predicate ExactCover(s: seq<Extent>, n: nat) {
    && (forall l: nat :: l < n <==> Covered(s, l))
    && (forall i: nat, j: nat, l: nat :: i < |s| && j < |s| && Covers(s[i], l) && Covers(s[j], l) ==> i == j)
  }

  ghost predicate Ascending(s: seq<Extent>) {
    forall i: nat, j: nat :: i < j < |s| ==> s[i].logical <= s[j].logical
  }

  ghost predicate Nonempty(s: seq<Extent>) {
    forall i: nat :: i < |s| ==> s[i].length > 0
  }

  /** No two logical blocks share a physical one. */
  ghost predicate Injective(s: seq<Extent>) {
    forall i: nat, j: nat, l: nat, m: nat ::
      i < |s| && j < |s| && Covers(s[i], l) && Covers(s[j], m) && Place(s[i], l) == Place(s[j], m) ==> l == m
  }

  /** No logical block is stored in one of these blocks. */
  ghost predicate Avoids(s: seq<Extent>, blocks: set<nat>) {
    forall i: nat, l: nat :: i < |s| && Covers(s[i], l) ==> Place(s[i], l) !in blocks
  }

  lemma {:induction false} TotalClimbs(s: seq<Extent>, m: nat, n: nat)
    requires m <= n <= |s|
    ensures Total(s, m) <= Total(s, n)
  {
    if m < n {
      TotalClimbs(s, m, n - 1);
    }
  }

  /** The first `n` extents follow each other from logical block zero on. */
  ghost predicate ContiguousUpTo(s: seq<Extent>, n: nat)
    requires n <= |s|
  {
    forall i: nat :: i < n ==> s[i].logical == Total(s, i)
  }

  ghost predicate CoveredBy(s: seq<Extent>, n: nat, l: nat)
    requires n <= |s|
  {
    exists i: nat :: i < n && Covers(s[i], l)
  }

  lemma CoveredByOneMore(s: seq<Extent>, n: nat, l: nat)
    requires n < |s|
    ensures CoveredBy(s, n + 1, l) <==> CoveredBy(s, n, l) || Covers(s[n], l)
  {
    hide Covers;
  }

  lemma CoveredByNone(s: seq<Extent>, l: nat)
    ensures !CoveredBy(s, 0, l)
  {
  }

  /** Exactly the blocks below the end of contiguous extents lie in one of them. */
  lemma {:induction false} CoveredBelow(s: seq<Extent>, n: nat, l: nat)
    requires n <= |s| && ContiguousUpTo(s, n)
    ensures l < Total(s, n) <==> CoveredBy(s, n, l)
  {
    hide Total, CoveredBy;
    TotalGrows(s, 0);
    if n == 0 {
      CoveredByNone(s, l);
    } else {
      CoveredBelow(s, n - 1, l);
      TotalGrows(s, n - 1);
      CoveredByOneMore(s, n - 1, l);
    }
  }

  /** Contiguous extents follow each other without overlap. */
  lemma Follows(s: seq<Extent>, n: nat, i: nat, j: nat)
    requires n <= |s| && ContiguousUpTo(s, n) && i < j < n
    ensures s[i].logical + s[i].length <= s[j].logical
  {
    TotalClimbs(s, i + 1, j);
  }

  lemma ContiguousCovers(s: seq<Extent>, n: nat)
    requires Contiguous(s) && Total(s, |s|) == n
    ensures ExactCover(s, n) && Ascending(s)
  {
    hide Total;
    assert ContiguousUpTo(s, |s|);
    forall l: nat ensures l < n <==> Covered(s, l) {
      CoveredBelow(s, |s|, l);
    }
    forall i: nat, j: nat | i < j < |s| ensures s[i].logical + s[i].length <= s[j].logical {
      Follows(s, |s|, i, j);
    }
  }

  /** An extent that follows contiguous ones in an exact cover does not start below their end. */
  lemma StartsNoEarlier(s: seq<Extent>, n: nat, k: nat)
    requires ExactCover(s, n) && Nonempty(s) && k < |s| && ContiguousUpTo(s, k)
    ensures s[k].logical >= Total(s, k)
  {
    hide Total;
    CoveredBelow(s, k, s[k].logical);
    assert Covers(s[k], s[k].logical);
  }

  /** If the next extent starts above the end of contiguous ones, nothing covers that end. */
  lemma GapIsUncovered(s: seq<Extent>, k: nat)
    requires k <= |s| && Ascending(s) && ContiguousUpTo(s, k)
    ensures (k < |s| ==> s[k].logical > Total(s, k)) ==> !Covered(s, Total(s, k))
  {
    hide Total;
    CoveredBelow(s, k, Total(s, k));
    assert forall i: nat :: k < i < |s| ==> s[k].logical <= s[i].logical;
  }

  lemma StartsNoLater(s: seq<Extent>, n: nat, k: nat)
    requires ExactCover(s, n) && Ascending(s) && Nonempty(s) && k < |s| && ContiguousUpTo(s, k)
    ensures s[k].logical <= Total(s, k)
  {
    hide Total;
    GapIsUncovered(s, k);
    assert Covers(s[k], s[k].logical) && Covered(s, s[k].logical);
  }

  /** An exact cover in ascending order has no gap in front of its extent `k`. */
  lemma {:induction false} CoverIsContiguous(s: seq<Extent>, n: nat, k: nat)
    requires ExactCover(s, n) && Ascending(s) && Nonempty(s) && k <= |s|
    ensures ContiguousUpTo(s, k)
  {
    hide Total, ExactCover, Ascending, Nonempty;
    if k > 0 {
      CoverIsContiguous(s, n, k - 1);
      StartsNoEarlier(s, n, k - 1);
      StartsNoLater(s, n, k - 1);
    }
  }

  /** The walk's contiguity check holds exactly for an ascending exact cover. */
  lemma ContiguousExactlyWhenCovering(s: seq<Extent>, n: nat)
    requires Nonempty(s)
    ensures Contiguous(s) && Total(s, |s|) == n <==> ExactCover(s, n) && Ascending(s)
  {
    hide Total;
    if Contiguous(s) && Total(s, |s|) == n {
      ContiguousCovers(s, n);
    }
    if ExactCover(s, n) && Ascending(s) {
      CoverIsContiguous(s, n, |s|);
      CoveredBelow(s, |s|, n);
      CoveredBelow(s, |s|, Total(s, |s|));
      assert Covered(s, n) <==> n < Total(s, |s|);
      assert !Covered(s, Total(s, |s|));
    }
  }

  /** Two overlapping extents store two logical blocks in one physical block. */
  lemma Shared(a: Extent, b: Extent) returns (l: nat, m: nat)
    ensures a.length > 0 && b.length > 0 && Overlap(a, b) ==>
              (Covers(a, l) && Covers(b, m) && Place(a, l) == Place(b, m))
  {
    var p := Max(a.physical, b.physical);
    l, m := a.logical + (p - a.physical), b.logical + (p - b.physical);
  }

  lemma DisjointExactlyWhenInjective(s: seq<Extent>)
    requires Nonempty(s) && Contiguous(s)
    ensures Disjoint(s) <==> Injective(s)
  {
    hide Total;
    ContiguousCovers(s, Total(s, |s|));
    if Injective(s) {
      forall i: nat, j: nat | j < i < |s| ensures !Overlap(s[j], s[i]) {
        var l, m := Shared(s[j], s[i]);
      }
    }
    if Disjoint(s) {
      forall i: nat, j: nat | j < i < |s| ensures !Overlap(s[j], s[i]) {
        assert ClearOf(s, i);
      }
      assert Injective(s);
    }
  }

  lemma StoredIn(e: Extent, block: nat) returns (l: nat)
    ensures Within(e, block) ==> Covers(e, l) && Place(e, l) == block
  {
    l := if Within(e, block) then e.logical + (block - e.physical) else 0;
  }

  lemma ApartExactlyWhenAvoiding(s: seq<Extent>, blocks: set<nat>)
    ensures Apart(s, blocks) <==> Avoids(s, blocks)
  {
    if Avoids(s, blocks) {
      forall e, b | e in s && b in blocks ensures !Within(e, b) {
        var i: nat :| i < |s| && s[i] == e;
        var l := StoredIn(e, b);
        assert Covers(s[i], l) ==> Place(s[i], l) !in blocks;
      }
    }
    if Apart(s, blocks) {
      forall i: nat, l: nat | i < |s| && Covers(s[i], l) ensures Place(s[i], l) !in blocks {
        assert s[i] in s && Within(s[i], Place(s[i], l));
      }
    }
  }

  /** Every extent a well-formed tree denotes is nonempty and on the device. */
  lemma {:induction false} LeavesInRange(dev: Device, raw: seq<Byte>, depth: nat, n: nat)
    requires EntriesOk(dev, raw, depth, n)
    ensures forall e :: e in LeavesUpTo(dev, raw, depth, n) ==> ExtentOk(dev, e)
    decreases depth, n
  {
    hide U16, U32, HeaderOk, Logical, IndexOk, ExtentOk;
    if n > 0 {
      LeavesInRange(dev, raw, depth, n - 1);
      assert EntryOk(dev, raw, depth, n - 1);
      if depth > 0 {
        var child := Child(dev, raw, n - 1);
        assert NodeOk(dev, child, depth - 1);
        LeavesInRange(dev, child, depth - 1, Entries(child));
        assert LeavesOf(dev, raw, depth, n - 1) == Leaves(dev, child, depth - 1);
      }
      assert LeavesUpTo(dev, raw, depth, n) == LeavesUpTo(dev, raw, depth, n - 1) + LeavesOf(dev, raw, depth, n - 1);
    }
  }

  /**
   * For arbitrary device bytes: the reader accepts exactly the bounded well-formed trees whose
   * extents, in ascending order, store each of the journal's logical blocks once and nothing else,
   * no two in one physical block, and none in a block of the tree itself.
   */
  lemma AcceptedExactlyWhen(dev: Device, blockMap: seq<Byte>, journalBlocks: nat)
    ensures var s := Leaves(dev, blockMap, U16(blockMap, 6));
            Accepted(dev, blockMap, journalBlocks) <==>
              (&& Bounded(dev, blockMap)
               && Ascending(s) && ExactCover(s, journalBlocks) && Injective(s)
               && Avoids(s, TreeBlocks(dev, blockMap)))
  {
    var depth := U16(blockMap, 6);
    var s := Leaves(dev, blockMap, depth);
    if Bounded(dev, blockMap) {
      LeavesInRange(dev, blockMap, depth, Entries(blockMap));
      assert forall i: nat :: i < |s| ==> ExtentOk(dev, s[i]);
      ContiguousExactlyWhenCovering(s, journalBlocks);
      if Contiguous(s) {
        DisjointExactlyWhenInjective(s);
      }
      ApartExactlyWhenAvoiding(s, TreeBlocks(dev, blockMap));
    }
  }

  /** Every block the accepted map names is on the device, past block zero. */
  lemma AcceptedIsInRange(dev: Device, blockMap: seq<Byte>, journalBlocks: nat, l: nat)
    requires Accepted(dev, blockMap, journalBlocks) && l < journalBlocks
    ensures exists e :: e in Leaves(dev, blockMap, U16(blockMap, 6)) && Covers(e, l) && 0 < Place(e, l) < |dev|
  {
    var s := Leaves(dev, blockMap, U16(blockMap, 6));
    AcceptedExactlyWhen(dev, blockMap, journalBlocks);
    LeavesInRange(dev, blockMap, U16(blockMap, 6), Entries(blockMap));
    assert Covered(s, l);
    var i: nat :| i < |s| && Covers(s[i], l);
    assert ExtentOk(dev, s[i]);
  }
}
