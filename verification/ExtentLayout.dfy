/**
 * The on-disk layout of an ext4 extent node, written out: what the reader decodes from a block is
 * what the layout encodes into it.
 */
module ExtentLayout {
  import opened Basics
  import opened ExtentTree

  /** The little-endian bytes of a field. */
  function LittleEndian(n: nat, width: nat): (s: seq<Byte>)
    ensures |s| == width
  {
    if width == 0 then [] else [n % 0x100] + LittleEndian(n / 0x100, width - 1)
  }

  /** Magic, entries in use, capacity, depth, generation. */
  function Header(entries: nat, maximum: nat, depth: nat, generation: nat): (s: seq<Byte>)
    ensures |s| == 12
  {
    LittleEndian(0xF30A, 2) + LittleEndian(entries, 2) + LittleEndian(maximum, 2) + LittleEndian(depth, 2)
    + LittleEndian(generation, 4)
  }

  /** First logical block, length, then the physical block's high and low parts. */
  function LeafEntry(e: Extent): (s: seq<Byte>)
    ensures |s| == 12
  {
    LittleEndian(e.logical, 4) + LittleEndian(e.length, 2) + LittleEndian(e.physical / 0x1_0000_0000, 2)
    + LittleEndian(e.physical % 0x1_0000_0000, 4)
  }

  /** First logical block, then the child block's low and high parts, and two unused bytes. */
  function IndexEntry(logical: nat, block: nat): (s: seq<Byte>)
    ensures |s| == 12
  {
    LittleEndian(logical, 4) + LittleEndian(block % 0x1_0000_0000, 4) + LittleEndian(block / 0x1_0000_0000, 2)
    + LittleEndian(0, 2)
  }

  type Entry12 = s: seq<Byte> | |s| == 12 witness [0, 0, 0, 0, 0, 0, 0, 0, 0, 0, 0, 0]

  function Joined(entries: seq<Entry12>): (s: seq<Byte>)
    ensures |s| == 12 * |entries|
  {
    if entries == [] then [] else Joined(entries[..|entries| - 1]) + entries[|entries| - 1]
  }

  function Block(depth: nat, generation: nat, entries: seq<Entry12>, rest: seq<Byte>): seq<Byte> {
    Header(|entries|, (12 * |entries| + |rest|) / 12, depth, generation) + Joined(entries) + rest
  }

  lemma Read16(raw: seq<Byte>, i: nat, n: nat)
    requires i + 2 <= |raw| && raw[i..i + 2] == LittleEndian(n, 2) && n < 0x1_0000
    ensures U16(raw, i) == n
  {
    assert LittleEndian(n, 2) == [n % 0x100] + LittleEndian(n / 0x100, 1);
    assert LittleEndian(n / 0x100, 1) == [n / 0x100 % 0x100] + LittleEndian(n / 0x100 / 0x100, 0);
    assert raw[i] == raw[i..i + 2][0] && raw[i + 1] == raw[i..i + 2][1];
  }

  lemma Halves(n: nat)
    ensures LittleEndian(n, 4)[..2] == LittleEndian(n % 0x1_0000, 2)
    ensures LittleEndian(n, 4)[2..] == LittleEndian(n / 0x1_0000, 2)
  {
    assert LittleEndian(n, 4) == [n % 0x100] + LittleEndian(n / 0x100, 3);
    assert LittleEndian(n / 0x100, 3) == [n / 0x100 % 0x100] + LittleEndian(n / 0x100 / 0x100, 2);
    assert n / 0x100 / 0x100 == n / 0x1_0000;
    var m := n % 0x1_0000;
    assert LittleEndian(m, 2) == [m % 0x100] + LittleEndian(m / 0x100, 1);
    assert LittleEndian(m / 0x100, 1) == [m / 0x100 % 0x100] + LittleEndian(m / 0x100 / 0x100, 0);
    assert m % 0x100 == n % 0x100 && m / 0x100 % 0x100 == n / 0x100 % 0x100;
  }

  lemma Read32(raw: seq<Byte>, i: nat, n: nat)
    requires i + 4 <= |raw| && raw[i..i + 4] == LittleEndian(n, 4) && n < 0x1_0000_0000
    ensures U32(raw, i) == n
  {
    Halves(n);
    assert raw[i..i + 2] == raw[i..i + 4][..2] && raw[i + 2..i + 4] == raw[i..i + 4][2..];
    Read16(raw, i, n % 0x1_0000);
    Read16(raw, i + 2, n / 0x1_0000);
  }

  /** Entry `i` of a joined block stands at its place. */
  lemma {:induction false} JoinedAt(entries: seq<Entry12>, i: nat)
    requires i < |entries|
    ensures Joined(entries)[12 * i..12 * i + 12] == entries[i]
  {
    var n := |entries| - 1;
    if i < n {
      JoinedAt(entries[..n], i);
      assert Joined(entries)[12 * i..12 * i + 12] == Joined(entries[..n])[12 * i..12 * i + 12];
    }
  }

  lemma EntryInBlock(depth: nat, generation: nat, entries: seq<Entry12>, rest: seq<Byte>, i: nat)
    requires i < |entries|
    ensures |Block(depth, generation, entries, rest)| == 12 + 12 * |entries| + |rest|
    ensures Block(depth, generation, entries, rest)[12 + 12 * i..24 + 12 * i] == entries[i]
  {
    JoinedAt(entries, i);
    var raw := Block(depth, generation, entries, rest);
    assert raw[12..12 + 12 * |entries|] == Joined(entries);
    assert raw[12 + 12 * i..24 + 12 * i] == raw[12..12 + 12 * |entries|][12 * i..12 * i + 12];
  }

  /** An encoded node with at least one entry has a header the reader takes, at its own depth and no other. */
  lemma HeaderDecodes(depth: nat, generation: nat, entries: seq<Entry12>, rest: seq<Byte>, expected: nat)
    requires entries != [] && depth < 0x1_0000 && 12 * |entries| + |rest| < 12 * 0x1_0000
    ensures var raw := Block(depth, generation, entries, rest);
            Entries(raw) == |entries| && U16(raw, 6) == depth && (HeaderOk(raw, expected) <==> expected == depth)
  {
    hide LittleEndian, U16, Joined;
    var raw := Block(depth, generation, entries, rest);
    var maximum := (12 * |entries| + |rest|) / 12;
    assert raw[0..2] == LittleEndian(0xF30A, 2) && raw[2..4] == LittleEndian(|entries|, 2);
    assert raw[4..6] == LittleEndian(maximum, 2) && raw[6..8] == LittleEndian(depth, 2);
    Read16(raw, 0, 0xF30A);
    Read16(raw, 2, |entries|);
    Read16(raw, 4, maximum);
    Read16(raw, 6, depth);
  }

  lemma PartOf(raw: seq<Byte>, at: nat, a: nat, b: nat)
    requires a <= b <= 12 && at + 12 <= |raw|
    ensures raw[at..at + 12][a..b] == raw[at + a..at + b]
  {
    var whole := raw[at..at + 12];
    assert forall k :: 0 <= k < b - a ==> whole[a..b][k] == raw[at + a..at + b][k];
  }

  lemma LeafFields(e: Extent)
    ensures LeafEntry(e)[0..4] == LittleEndian(e.logical, 4) && LeafEntry(e)[4..6] == LittleEndian(e.length, 2)
    ensures LeafEntry(e)[6..8] == LittleEndian(e.physical / 0x1_0000_0000, 2)
    ensures LeafEntry(e)[8..12] == LittleEndian(e.physical % 0x1_0000_0000, 4)
  {
    hide LittleEndian;
  }

  lemma IndexFields(logical: nat, block: nat)
    ensures IndexEntry(logical, block)[0..4] == LittleEndian(logical, 4)
    ensures IndexEntry(logical, block)[4..8] == LittleEndian(block % 0x1_0000_0000, 4)
    ensures IndexEntry(logical, block)[8..10] == LittleEndian(block / 0x1_0000_0000, 2)
    ensures IndexEntry(logical, block)[10..12] == LittleEndian(0, 2)
  {
    hide LittleEndian;
    var front := LittleEndian(logical, 4) + LittleEndian(block % 0x1_0000_0000, 4)
      + LittleEndian(block / 0x1_0000_0000, 2);
    assert IndexEntry(logical, block) == front + LittleEndian(0, 2) && |front| == 10;
  }

  /** What fits the fields of a leaf entry. */
  predicate Encodable(e: Extent) {
    e.logical < 0x1_0000_0000 && e.length < 0x1_0000 && e.physical < 0x1_0000_0000_0000
  }

  /** Every extent written into a leaf is read back. */
  lemma LeafDecodes(generation: nat, extents: seq<Extent>, rest: seq<Byte>, i: nat)
    requires i < |extents| && Encodable(extents[i])
    ensures ExtentAt(Block(0, generation, LeafEntries(extents), rest), i) == extents[i]
  {
    hide LittleEndian, U16, U32, Block, Joined, LeafEntry, IndexEntry;
    var raw, e := Block(0, generation, LeafEntries(extents), rest), extents[i];
    var at := 12 + 12 * i;
    EntryInBlock(0, generation, LeafEntries(extents), rest, i);
    LeafFields(e);
    PartOf(raw, at, 0, 4);
    PartOf(raw, at, 4, 6);
    PartOf(raw, at, 6, 8);
    PartOf(raw, at, 8, 12);
    Read32(raw, at, e.logical);
    Read16(raw, at + 4, e.length);
    Read16(raw, at + 6, e.physical / 0x1_0000_0000);
    Read32(raw, at + 8, e.physical % 0x1_0000_0000);
  }

  function LeafEntries(extents: seq<Extent>): (s: seq<Entry12>)
    ensures |s| == |extents|
  {
    seq(|extents|, i requires 0 <= i < |extents| => LeafEntry(extents[i]))
  }

  /** Every key and child block written into an index node is read back, with the unused bytes clear. */
  lemma IndexDecodes(depth: nat, generation: nat, children: seq<(nat, nat)>, rest: seq<Byte>, i: nat)
    requires i < |children| && children[i].0 < 0x1_0000_0000 && children[i].1 < 0x1_0000_0000_0000
    ensures var raw := Block(depth, generation, IndexEntries(children), rest);
            && Logical(raw, i) == children[i].0 && ChildBlock(raw, i) == children[i].1
            && forall dev: Device :: IndexOk(dev, raw, i) <==> 0 < children[i].1 < |dev|
  {
    hide LittleEndian, U16, U32, Block, Joined, LeafEntry, IndexEntry;
    var raw := Block(depth, generation, IndexEntries(children), rest);
    var at := 12 + 12 * i;
    EntryInBlock(depth, generation, IndexEntries(children), rest, i);
    IndexFields(children[i].0, children[i].1);
    PartOf(raw, at, 0, 4);
    PartOf(raw, at, 4, 8);
    PartOf(raw, at, 8, 10);
    PartOf(raw, at, 10, 12);
    Read32(raw, at, children[i].0);
    Read32(raw, at + 4, children[i].1 % 0x1_0000_0000);
    Read16(raw, at + 8, children[i].1 / 0x1_0000_0000);
    Read16(raw, at + 10, 0);
  }

  function IndexEntries(children: seq<(nat, nat)>): seq<Entry12> {
    seq(|children|, i requires 0 <= i < |children| => IndexEntry(children[i].0, children[i].1))
  }

  /* ---------- a whole map ---------- */

  /** Each extent is initialized and lies on the device past block zero. */
  predicate Usable(e: Extent, blocks: nat) {
    1 <= e.length <= 32768 && 1 <= e.physical && e.physical + e.length <= blocks
  }

  /** The extents run through the logical blocks from zero to `blocks` without a gap. */
  predicate RunsThrough(extents: seq<Extent>, blocks: nat) {
    && extents != [] && extents[0].logical == 0
    && (forall i: nat :: i + 1 < |extents| ==> extents[i + 1].logical == extents[i].logical + extents[i].length)
    && extents[|extents| - 1].logical + extents[|extents| - 1].length == blocks
  }

  predicate StoredApart(extents: seq<Extent>) {
    forall i: nat, j: nat :: i < j < |extents| ==>
      || extents[i].physical + extents[i].length <= extents[j].physical
      || extents[j].physical + extents[j].length <= extents[i].physical
  }

  /** What an inode holds: up to four extents, and the rest of its 60 bytes. */
  predicate FitsInode(extents: seq<Extent>, rest: seq<Byte>) {
    extents != [] && 12 * |extents| + |rest| == 48 && forall i: nat :: i < |extents| ==> Encodable(extents[i])
  }

  function InodeMap(generation: nat, extents: seq<Extent>, rest: seq<Byte>): seq<Byte> {
    Block(0, generation, LeafEntries(extents), rest)
  }

  lemma {:induction false} LeavesDecode(dev: Device, generation: nat, extents: seq<Extent>, rest: seq<Byte>, n: nat)
    requires n <= |extents| && forall i: nat :: i < |extents| ==> Encodable(extents[i])
    ensures LeavesUpTo(dev, InodeMap(generation, extents, rest), 0, n) == extents[..n]
    ensures NodesUpTo(dev, InodeMap(generation, extents, rest), 0, n) == []
    ensures EntriesOk(dev, InodeMap(generation, extents, rest), 0, n) <==>
              && (forall i: nat :: i < n ==> ExtentOk(dev, extents[i]))
              && (forall i: nat :: i + 1 < n ==> extents[i].logical < extents[i + 1].logical)
  {
    hide ExtentAt, Block, Logical, ExtentOk, LeafEntries, Encodable;
    if n > 0 {
      LeavesDecode(dev, generation, extents, rest, n - 1);
      LeafDecodes(generation, extents, rest, n - 1);
      LogicalIs(InodeMap(generation, extents, rest), n - 1);
      if n > 1 {
        LeafDecodes(generation, extents, rest, n - 2);
        LogicalIs(InodeMap(generation, extents, rest), n - 2);
      }
    }
  }

  lemma LogicalIs(raw: seq<Byte>, i: nat)
    ensures ExtentAt(raw, i).logical == Logical(raw, i)
  {
  }

  lemma {:induction false} RunsTotal(extents: seq<Extent>, n: nat)
    requires n < |extents| && extents[0].logical == 0
    requires forall i: nat :: i + 1 < |extents| ==> extents[i + 1].logical == extents[i].logical + extents[i].length
    ensures Total(extents, n) == extents[n].logical
  {
    TotalGrows(extents, 0);
    if n > 0 {
      RunsTotal(extents, n - 1);
      TotalGrows(extents, n - 1);
      assert extents[n - 1 + 1].logical == extents[n - 1].logical + extents[n - 1].length;
    }
  }

  lemma ContiguousRuns(extents: seq<Extent>, blocks: nat)
    requires extents != []
    ensures Contiguous(extents) && Total(extents, |extents|) == blocks <==> RunsThrough(extents, blocks)
  {
    var last: nat := |extents| - 1;
    TotalGrows(extents, last);
    TotalGrows(extents, 0);
    if RunsThrough(extents, blocks) {
      forall i: nat | i < |extents| ensures extents[i].logical == Total(extents, i) {
        RunsTotal(extents, i);
      }
    }
    if Contiguous(extents) && Total(extents, |extents|) == blocks {
      forall i: nat | i + 1 < |extents| ensures extents[i + 1].logical == extents[i].logical + extents[i].length {
        TotalGrows(extents, i);
        assert extents[i + 1].logical == Total(extents, i + 1);
      }
    }
  }

  /** Ranges overlap unless one ends before the other starts. */
  lemma DisjointIsApart(extents: seq<Extent>)
    ensures Disjoint(extents) <==> StoredApart(extents)
  {
    if StoredApart(extents) {
      forall i: nat | i < |extents| ensures ClearOf(extents, i) {
      }
    }
    if Disjoint(extents) {
      forall i: nat, j: nat | i < j < |extents| ensures !Overlap(extents[i], extents[j]) {
        assert ClearOf(extents, j);
      }
    }
  }

  /** A single leaf of at most four extents is within every bound. */
  lemma LeafIsBounded(dev: Device, raw: seq<Byte>, extents: seq<Extent>)
    requires |raw| == 60 && U16(raw, 6) == 0 && HeaderOk(raw, 0) && Entries(raw) == |extents| <= 4
    requires LeavesUpTo(dev, raw, 0, |extents|) == extents && NodesUpTo(dev, raw, 0, |extents|) == []
    ensures Bounded(dev, raw) <==> EntriesOk(dev, raw, 0, |extents|)
    ensures Leaves(dev, raw, 0) == extents && TreeBlocks(dev, raw) == {}
  {
    hide LeavesUpTo, NodesUpTo, EntriesOk, HeaderOk, U16, Entries;
    assert Nodes(dev, raw, 0) == [] && Elements(Sources([])) == {};
  }

  /** Nonempty extents that follow each other have ascending keys. */
  lemma EntriesAscend(dev: Device, extents: seq<Extent>, blocks: nat)
    requires RunsThrough(extents, blocks)
    ensures && (forall i: nat :: i < |extents| ==> ExtentOk(dev, extents[i]))
            && (forall i: nat :: i + 1 < |extents| ==> extents[i].logical < extents[i + 1].logical) <==>
            (forall i: nat :: i < |extents| ==> Usable(extents[i], |dev|))
  {
  }

  /**
   * The map of an inode that holds its extents itself is accepted exactly when they are usable, run
   * through the journal's blocks in order, and are stored apart.
   */
  lemma InodeMapAcceptedExactlyWhen(dev: Device, generation: nat, extents: seq<Extent>, rest: seq<Byte>, blocks: nat)
    requires FitsInode(extents, rest)
    ensures Accepted(dev, InodeMap(generation, extents, rest), blocks) <==>
              && (forall i: nat :: i < |extents| ==> Usable(extents[i], |dev|))
              && RunsThrough(extents, blocks) && StoredApart(extents)
  {
    hide Block, ExtentAt, LeavesUpTo, NodesUpTo, EntriesOk, LeafEntries, Contiguous, HeaderOk, Bounded, Disjoint, U16;
    hide RunsThrough, Usable, StoredApart, ExtentOk;
    var raw := InodeMap(generation, extents, rest);
    HeaderDecodes(0, generation, LeafEntries(extents), rest, 0);
    LeavesDecode(dev, generation, extents, rest, |extents|);
    BlockLength(generation, extents, rest);
    assert extents[..|extents|] == extents;
    LeafIsBounded(dev, raw, extents);
    ContiguousRuns(extents, blocks);
    DisjointIsApart(extents);
    if RunsThrough(extents, blocks) {
      EntriesAscend(dev, extents, blocks);
    }
  }

  lemma BlockLength(generation: nat, extents: seq<Extent>, rest: seq<Byte>)
    ensures |InodeMap(generation, extents, rest)| == 12 + 12 * |extents| + |rest|
  {
    hide Header, Joined, LeafEntries;
  }
}
