// The disk of the SAC file system: where `format_disk` puts each region, and what formatting leaves on the disk.
module SacLayout {
  import opened SacBitmap
  import SacPaths

  const BLOCK_SIZE: int := 4096
  const NODE_TABLE_BLOCKS: int := 1024

  // ---- the region arithmetic ----

  datatype Layout = Layout(
    bitmap_size_bytes: int,
    bitmap_start: int, bitmap_end: int,
    node_table_start: int, node_table_end: int,
    data_blocks_start: int, data_blocks_end: int)

  /** The bounds for a disk of that many bytes; the rounding in the source is of an int and changes nothing. */
  function Regions(disk_size_bytes: nat): Layout {
    var blocks := disk_size_bytes / BLOCK_SIZE;
    var bitmap_blocks := blocks / 8 / BLOCK_SIZE;
    var node_table_start := 1 + bitmap_blocks;
    var data_blocks_start := node_table_start + NODE_TABLE_BLOCKS;
    var data_blocks := blocks - 1 - bitmap_blocks - NODE_TABLE_BLOCKS;
    Layout(
      blocks / 8, 1, bitmap_blocks,
      node_table_start, data_blocks_start - 1,
      data_blocks_start, data_blocks_start + data_blocks - 1)
  }

  /** In how many of the regions (header, bitmap, node table, data) a block lies. */
  function RegionsOf(l: Layout, block: int): nat {
    (if block == 0 then 1 else 0)
    + (if l.bitmap_start <= block <= l.bitmap_end then 1 else 0)
    + (if l.node_table_start <= block <= l.node_table_end then 1 else 0)
    + (if l.data_blocks_start <= block <= l.data_blocks_end then 1 else 0)
  }

  /** The disk has room for the header, the bitmap and the node table. */
  predicate Roomy(size: nat) {
    1 + NODE_TABLE_BLOCKS + size / BLOCK_SIZE / 8 / BLOCK_SIZE <= size / BLOCK_SIZE
  }

  /** Every block of the disk is in exactly one region, and no region leaves the disk, exactly when the disk has room
      for the header, the bitmap and the node table. */
  lemma RegionsPartitionIff(size: nat)
    ensures var l := Regions(size); var blocks := size / BLOCK_SIZE;
      (forall block :: RegionsOf(l, block) == (if 0 <= block < blocks then 1 else 0))
      <==> Roomy(size)
  {
    var l := Regions(size);
    var blocks := size / BLOCK_SIZE;
    if !Roomy(size) {
      assert RegionsOf(l, l.node_table_end) == 1;
    }
  }

  /** The bytes of the bitmap stay inside its blocks. */
  predicate BitmapFits(l: Layout) {
    l.bitmap_size_bytes <= (l.bitmap_end - l.bitmap_start + 1) * BLOCK_SIZE
  }

  /** Every block has a bit. */
  predicate BitmapCovers(size: nat) {
    size / BLOCK_SIZE <= 8 * Regions(size).bitmap_size_bytes
  }

  lemma BitmapFitsIff(size: nat)
    ensures BitmapFits(Regions(size)) <==> (size / BLOCK_SIZE / 8) % BLOCK_SIZE == 0
  {}

  lemma BitmapCoversIff(size: nat)
    ensures BitmapCovers(size) <==> (size / BLOCK_SIZE) % 8 == 0
  {}

  lemma TableAtTwoIff(size: nat)
    ensures Regions(size).node_table_start == 2 <==> 32768 <= size / BLOCK_SIZE < 65536
  {}

  /** The three facts the rest of the server takes for granted: the bitmap stays clear of the node table and has a bit
      for every block, and the table starts at block 2. They hold together for a disk of 32768 blocks and no other. */
  lemma LayoutAsAssumedIff(size: nat)
    ensures BitmapFits(Regions(size)) && BitmapCovers(size) && Regions(size).node_table_start == 2
       <==> size / BLOCK_SIZE == 32768
  {}

  /** The disk the repository's own instructions create (10240 blocks of 1024 bytes): its node table starts on the
      bitmap. */
  lemma DocumentedDiskOverlaps()
    ensures Regions(10240 * 1024).node_table_start == Regions(10240 * 1024).bitmap_start == 1
    ensures !BitmapFits(Regions(10240 * 1024))
  {}

  /** The two areas blocks are reserved in: 0, the node table, and 1, the data blocks. */
  function Areas(l: Layout): seq<Area> {
    [Area(l.node_table_start, l.node_table_end), Area(l.data_blocks_start, l.data_blocks_end)]
  }

  predicate InArea(area: Area, block: int) {
    area.lo <= block <= area.hi
  }

  /** On a disk with room every block behind the bitmap's is in exactly one area and no other block is in either; the
      first area is the 1024 blocks behind the bitmap, which are as many as `find_node` reads. */
  lemma AreasSplit(size: nat, block: int)
    requires Roomy(size)
    ensures var areas := Areas(Regions(size)); var behind := 1 + size / BLOCK_SIZE / 32768;
      && |areas| == 2
      && (InArea(areas[0], block) <==> behind <= block < behind + 1024)
      && (InArea(areas[1], block) <==> behind + 1024 <= block < size / BLOCK_SIZE)
    ensures SacPaths.NODES == 1024
  {
    Eighths(size / BLOCK_SIZE);
  }

  lemma Eighths(blocks: nat)
    ensures blocks / 8 / BLOCK_SIZE == blocks / 32768
  {}

  /** The layout of the disk the server takes for granted, in numbers. */
  lemma AssumedLayout()
    ensures Regions(32768 * 4096) == Layout(4096, 1, 1, 2, 1025, 1026, 32767)
  {}

  /** On a disk with room for its regions, the two areas are disjoint and inside the bitmap exactly when the bitmap
      covers the disk. */
  lemma AreasOkIff(size: nat, bytes: Bytes)
    requires Roomy(size)
    requires |bytes| == Regions(size).bitmap_size_bytes
    ensures AreasOk(bytes, Areas(Regions(size))) <==> BitmapCovers(size)
  {
    var l := Regions(size);
    var areas := Areas(l);
    assert areas[0].hi < areas[1].lo && areas[1].hi == size / BLOCK_SIZE - 1;
    assert areas[0].lo >= 0 && areas[1].lo >= 0;
  }

  // ---- what formatting writes ----

  /** The bitmap after formatting: blocks 0, 1 and 2 occupied. */
  function FormattedBitmap(n: nat): (r: Bytes)
    ensures |r| == n
  {
    seq(n, i => if i == 0 then 7 else 0)
  }

  lemma FormattedBits(n: nat, k: int)
    requires 0 <= k < 8 * n
    ensures Bit(FormattedBitmap(n), k) <==> k < 3
  {
    MaskValues();
    if k < 8 {
      MaskIsOneOf(k);
    } else {
      assert FormattedBitmap(n)[k / 8] == 0;
    }
  }

  /** Two bitmaps with the same bits have the same bytes. */
  lemma BytesFromBits(a: Bytes, b: Bytes)
    requires |a| == |b| && forall k :: 0 <= k < 8 * |a| ==> (Bit(a, k) <==> Bit(b, k))
    ensures a == b
  {
    forall i | 0 <= i < |a| ensures a[i] == b[i] {
      hide Mask;
      forall j | 0 <= j < 8 ensures a[i] & Mask(j) != 0 <==> b[i] & Mask(j) != 0 {
        assert (8 * i + j) / 8 == i && (8 * i + j) % 8 == j;
        assert Bit(a, 8 * i + j) <==> Bit(b, 8 * i + j);
      }
      ByteFromBits(a[i], b[i]);
    }
  }

  lemma FromBits(bytes: Bytes)
    requires forall k :: 0 <= k < 8 * |bytes| ==> (Bit(bytes, k) <==> k < 3)
    ensures bytes == FormattedBitmap(|bytes|)
  {
    hide Bit;
    forall k | 0 <= k < 8 * |bytes| ensures Bit(bytes, k) <==> Bit(FormattedBitmap(|bytes|), k) {
      FormattedBits(|bytes|, k);
    }
    BytesFromBits(bytes, FormattedBitmap(|bytes|));
  }

  predicate IsRoot(block: Bytes)
    requires |block| == BLOCK_SIZE
  {
    block[1..6] == [114, 111, 111, 116, 0]
  }

  function Overwritten(disk: Bytes, offset: int, bytes: Bytes): (r: Bytes)
    requires 0 <= offset && offset + |bytes| <= |disk|
    ensures |r| == |disk|
  {
    disk[..offset] + bytes + disk[offset + |bytes|..]
  }

  lemma OverwrittenParts(disk: Bytes, offset: int, bytes: Bytes)
    requires 0 <= offset && offset + |bytes| <= |disk|
    ensures Overwritten(disk, offset, bytes)[..offset] == disk[..offset]
    ensures Overwritten(disk, offset, bytes)[offset..offset + |bytes|] == bytes
    ensures Overwritten(disk, offset, bytes)[offset + |bytes|..] == disk[offset + |bytes|..]
  {}

  /** A stretch before the overwritten one is untouched. */
  lemma OverwrittenBefore(disk: Bytes, offset: int, bytes: Bytes, lo: int, hi: int)
    requires 0 <= lo <= hi <= offset && offset + |bytes| <= |disk|
    ensures Overwritten(disk, offset, bytes)[lo..hi] == disk[lo..hi]
  {}

  lemma ReplacedBitmap(was: Bytes, now: Bytes, n: nat)
    requires |was| == |now| && BLOCK_SIZE + n <= |now|
    requires now[..BLOCK_SIZE] == was[..BLOCK_SIZE] && now[BLOCK_SIZE + n..] == was[BLOCK_SIZE + n..]
    ensures now == Overwritten(was, BLOCK_SIZE, now[BLOCK_SIZE..BLOCK_SIZE + n])
  {
    assert now == now[..BLOCK_SIZE] + now[BLOCK_SIZE..BLOCK_SIZE + n] + now[BLOCK_SIZE + n..];
  }

  predicate HasNode(disk: Bytes, block: int) {
    0 <= block && (block + 1) * BLOCK_SIZE <= |disk|
  }

  function NodeAt(disk: Bytes, block: int): (r: Bytes)
    requires HasNode(disk, block)
    ensures |r| == BLOCK_SIZE
  {
    disk[block * BLOCK_SIZE..block * BLOCK_SIZE + BLOCK_SIZE]
  }

  /** On a disk of 32768 blocks or more the bitmap and the first node are on the disk, in that order when the bitmap
      fits, and every block of the node table has a bit. */
  lemma RegionsValid(size: nat)
    requires 32768 <= size / BLOCK_SIZE
    ensures var l := Regions(size);
      && l.bitmap_start == 1 && 0 <= l.node_table_start && 0 <= l.data_blocks_start
      && BLOCK_SIZE <= l.bitmap_size_bytes && BLOCK_SIZE + l.bitmap_size_bytes <= size
      && (BitmapFits(l) ==> BLOCK_SIZE + l.bitmap_size_bytes <= l.node_table_start * BLOCK_SIZE)
      && (l.node_table_start + 1) * BLOCK_SIZE <= size
      && l.node_table_end + 1 < 8 * l.bitmap_size_bytes
  {}

  ghost function BitmapOf(disk: Bytes, n: nat): Bytes
    requires BLOCK_SIZE + n <= |disk|
  {
    disk[BLOCK_SIZE..BLOCK_SIZE + n]
  }

  /** The disk after one block of it has been written. */
  function BlockWritten(disk: Bytes, block: int, contents: Bytes): (r: Bytes)
    requires HasNode(disk, block) && |contents| == BLOCK_SIZE
    ensures |r| == |disk|
  {
    Overwritten(disk, block * BLOCK_SIZE, contents)
  }

  /** Whatever is written to a block of either area, on whatever disk of that size, the bitmap stays as it was. */
  ghost predicate WritesSpareBitmap(size: nat)
    requires Roomy(size)
  {
    var l := Regions(size);
    forall disk: Bytes, block: int, contents: Bytes ::
      |disk| == size && |contents| == BLOCK_SIZE && l.node_table_start <= block <= l.data_blocks_end ==>
        BitmapOf(BlockWritten(disk, block, contents), l.bitmap_size_bytes) == BitmapOf(disk, l.bitmap_size_bytes)
  }

  /** On a disk with room, the blocks of the two areas and the bytes of the bitmap are on the disk. */
  lemma AreasOnDisk(size: nat)
    requires Roomy(size)
    ensures var l := Regions(size);
      && 1 <= l.node_table_start && (l.data_blocks_end + 1) * BLOCK_SIZE <= size
      && l.node_table_start + NODE_TABLE_BLOCKS <= l.data_blocks_end + 1
      && 0 <= l.bitmap_size_bytes && BLOCK_SIZE + l.bitmap_size_bytes <= size
      && (BitmapFits(l) <==> BLOCK_SIZE + l.bitmap_size_bytes <= l.node_table_start * BLOCK_SIZE)
  {}

  /** Writing nodes and data leaves the bitmap alone exactly when the bitmap stays in its blocks. */
  lemma WritesSpareBitmapIff(size: nat)
    requires Roomy(size)
    ensures WritesSpareBitmap(size) <==> BitmapFits(Regions(size))
  {
    AreasOnDisk(size);
    var l := Regions(size);
    var n := l.bitmap_size_bytes;
    hide Regions, BitmapFits, Roomy;
    if BLOCK_SIZE + n <= l.node_table_start * BLOCK_SIZE {
      forall disk: Bytes, block: int, contents: Bytes |
        |disk| == size && |contents| == BLOCK_SIZE && l.node_table_start <= block <= l.data_blocks_end
        ensures BitmapOf(BlockWritten(disk, block, contents), n) == BitmapOf(disk, n)
      {
        OverwrittenBefore(disk, block * BLOCK_SIZE, contents, BLOCK_SIZE, BLOCK_SIZE + n);
      }
    } else {
      var first := l.node_table_start * BLOCK_SIZE;
      var disk: Bytes := seq(size, _ => 0);
      var contents: Bytes := seq(BLOCK_SIZE, _ => 1);
      var written := BlockWritten(disk, l.node_table_start, contents);
      OverwrittenParts(disk, first, contents);
      assert written[first] == contents[0];
      assert BitmapOf(written, n)[first - BLOCK_SIZE] == 1 && BitmapOf(disk, n)[first - BLOCK_SIZE] == 0;
    }
  }

  /** A block asked for, with what is written to it when there is one. */
  datatype Creation = Creation(area: int, contents: Bytes)

  predicate CreationsOk(creations: seq<Creation>) {
    forall i :: 0 <= i < |creations| ==> 0 <= creations[i].area < 2 && |creations[i].contents| == BLOCK_SIZE
  }

  function Calls(creations: seq<Creation>): (r: seq<int>)
    ensures |r| == |creations|
  {
    seq(|creations|, i requires 0 <= i < |creations| => creations[i].area)
  }

  /** Reserve on the disk: find a block of the area, write back the bitmap with it marked, then write the block. */
  ghost function Created(disk: Bytes, creation: Creation): (r: (int, Bytes))
    requires Roomy(|disk|) && BitmapCovers(|disk|) && CreationsOk([creation])
    ensures |r.1| == |disk|
  {
    var l := Regions(|disk|);
    AreasOnDisk(|disk|);
    assert CreationsOk([creation]) && creation == [creation][0];
    var (block, bitmap) := Reserve(BitmapOf(disk, l.bitmap_size_bytes), Areas(l)[creation.area]);
    (block, if block == -1 then disk else
      BlockWritten(Overwritten(disk, BLOCK_SIZE, bitmap), block, creation.contents))
  }

  ghost function DiskRun(disk: Bytes, creations: seq<Creation>): (r: (seq<int>, Bytes))
    requires Roomy(|disk|) && BitmapCovers(|disk|) && CreationsOk(creations)
    ensures |r.0| == |creations| && |r.1| == |disk|
  {
    if creations == [] then ([], disk)
    else
      var (answers, before) := DiskRun(disk, creations[..|creations| - 1]);
      var (block, after) := Created(before, creations[|creations| - 1]);
      (answers + [block], after)
  }

  /** On the disk a run answers, and leaves the bitmap, as the run of reservations alone. */
  ghost predicate RunsAgree(disk: Bytes, creations: seq<Creation>)
    requires Roomy(|disk|) && BitmapCovers(|disk|) && CreationsOk(creations)
  {
    var l := Regions(|disk|);
    var n := l.bitmap_size_bytes;
    AreasOnDisk(|disk|);
    AreasOkIff(|disk|, BitmapOf(disk, n));
    (DiskRun(disk, creations).0, BitmapOf(DiskRun(disk, creations).1, n))
      == Run(BitmapOf(disk, n), Areas(l), Calls(creations))
  }

  /** No block that can be handed out lies on the bitmap: the bitmap stays in its blocks, or block 2, the one block of
      the areas it reaches, is marked. */
  ghost predicate Clear(disk: Bytes)
    requires Roomy(|disk|) && BitmapCovers(|disk|)
  {
    var n := Regions(|disk|).bitmap_size_bytes;
    AreasOnDisk(|disk|);
    BitmapFits(Regions(|disk|))
    || (32768 <= |disk| / BLOCK_SIZE < 65536 && Bit(BitmapOf(disk, n), 2))
  }

  /** What the areas and the bitmap's end are worth to a block handed out. */
  lemma HandedOutClear(size: nat)
    requires Roomy(size) && BitmapCovers(size)
    ensures var l := Regions(size); var n := l.bitmap_size_bytes;
      && (BitmapFits(l) ==> BLOCK_SIZE + n <= l.node_table_start * BLOCK_SIZE)
      && (32768 <= size / BLOCK_SIZE < 65536 ==>
           l.node_table_start == 2 && BLOCK_SIZE + n <= 3 * BLOCK_SIZE && 2 < 8 * n)
      && l.node_table_start <= l.data_blocks_start && l.data_blocks_end < 8 * n && l.node_table_end < 8 * n
      && 0 <= n && BLOCK_SIZE + n <= size && 1 <= l.node_table_start
  {}

  lemma ReservedAt(bytes: Bytes, area: Area)
    requires 0 <= area.lo && area.hi < 8 * |bytes|
    ensures var (block, after) := Reserve(bytes, area);
      && (block == -1 ==> after == bytes)
      && (block != -1 ==> area.lo <= block <= area.hi && !Bit(bytes, block))
      && forall k :: 0 <= k < 8 * |bytes| && Bit(bytes, k) ==> Bit(after, k)
  {
    hide Bit;
    var (block, after) := Reserve(bytes, area);
    if block != -1 {
      forall k | 0 <= k < 8 * |bytes| && Bit(bytes, k) ensures Bit(after, k) {
        SetBitAt(bytes, block, k);
      }
    }
  }

  /** A block behind the bitmap does not touch the bitmap just written. */
  lemma WrittenBehind(disk: Bytes, n: nat, bitmap: Bytes, block: int, contents: Bytes)
    requires BLOCK_SIZE + n <= |disk| && |bitmap| == n && HasNode(disk, block) && |contents| == BLOCK_SIZE
    requires BLOCK_SIZE + n <= block * BLOCK_SIZE
    ensures BitmapOf(BlockWritten(Overwritten(disk, BLOCK_SIZE, bitmap), block, contents), n) == bitmap
  {
    OverwrittenParts(disk, BLOCK_SIZE, bitmap);
    OverwrittenBefore(Overwritten(disk, BLOCK_SIZE, bitmap), block * BLOCK_SIZE, contents, BLOCK_SIZE, BLOCK_SIZE + n);
  }

  lemma CreatedAgrees(disk: Bytes, creation: Creation)
    requires Roomy(|disk|) && BitmapCovers(|disk|) && CreationsOk([creation]) && Clear(disk)
    ensures var l := Regions(|disk|); var n := l.bitmap_size_bytes;
      && 0 <= n && BLOCK_SIZE + n <= |disk| && 0 <= creation.area < 2
      && 0 <= Areas(l)[creation.area].lo && Areas(l)[creation.area].hi < 8 * n
      && (Created(disk, creation).0, BitmapOf(Created(disk, creation).1, n))
         == Reserve(BitmapOf(disk, n), Areas(l)[creation.area])
    ensures Clear(Created(disk, creation).1)
  {
    AreasOnDisk(|disk|);
    HandedOutClear(|disk|);
    assert CreationsOk([creation]) && creation == [creation][0];
    var l := Regions(|disk|);
    var n := l.bitmap_size_bytes;
    var bits := BitmapOf(disk, n);
    var area := Areas(l)[creation.area];
    assert l.node_table_start <= area.lo;
    hide Regions, Areas, BitmapFits, BitmapCovers, Roomy, Bit, Reserve;
    ReservedAt(bits, area);
    var (block, bitmap) := Reserve(bits, area);
    if block != -1 {
      WrittenBehind(disk, n, bitmap, block, creation.contents);
    }
  }

  lemma {:induction false} DiskRunAgrees(disk: Bytes, creations: seq<Creation>)
    requires Roomy(|disk|) && BitmapCovers(|disk|) && CreationsOk(creations) && Clear(disk)
    ensures RunsAgree(disk, creations) && Clear(DiskRun(disk, creations).1)
  {
    hide Regions, Areas, Clear, Reserve;
    if creations != [] {
      var shorter := creations[..|creations| - 1];
      var last := creations[|creations| - 1];
      DiskRunAgrees(disk, shorter);
      CreatedAgrees(DiskRun(disk, shorter).1, last);
      assert Calls(shorter) == Calls(creations)[..|creations| - 1];
    }
  }

  /** The bytes before the first NUL. */
  function Name(bytes: Bytes): Bytes {
    if bytes == [] || bytes[0] == 0 then [] else [bytes[0]] + Name(bytes[1..])
  }

  /** A node is taken for the root exactly when the name behind its state byte is "root". */
  lemma IsRootIff(block: Bytes)
    requires |block| == BLOCK_SIZE
    ensures IsRoot(block) <==> Name(block[1..]) == [114, 111, 111, 116]
  {
    NameIs(block[1..], [114, 111, 111, 116]);
    assert block[1..][..5] == block[1..6];
  }

  lemma {:induction false} NameIs(bytes: Bytes, name: Bytes)
    requires |name| < |bytes| && 0 !in name
    ensures Name(bytes) == name <==> bytes[..|name| + 1] == name + [0]
  {
    if name == [] {
      assert bytes[..1] == [bytes[0]];
    } else {
      assert name[0] in name && forall x :: x in name[1..] ==> x in name;
      NameIs(bytes[1..], name[1..]);
      assert bytes[..|name| + 1] == [bytes[0]] + bytes[1..][..|name|];
      assert name + [0] == [name[0]] + (name[1..] + [0]);
      if bytes[..|name| + 1] == name + [0] {
        assert bytes[0] == name[0] && bytes[1..][..|name|] == name[1..] + [0];
      }
    }
  }

  /** What the start of the server looks at: such a disk is left as it is. */
  predicate HasRoot(disk: Bytes) {
    var first := Regions(|disk|).node_table_start;
    HasNode(disk, first) && IsRoot(NodeAt(disk, first))
  }

  /** So the whole-run results about reserving blocks hold of the disks with a root, whatever is written to the blocks
      handed out, exactly when the bitmap stays in its blocks. */
  lemma DiskRunsAgreeIff(size: nat)
    requires Roomy(size) && BitmapCovers(size)
    ensures (forall disk: Bytes, creations: seq<Creation> ::
              |disk| == size && HasRoot(disk) && CreationsOk(creations) ==> RunsAgree(disk, creations))
       <==> BitmapFits(Regions(size))
  {
    if BitmapFits(Regions(size)) {
      forall disk: Bytes, creations: seq<Creation> | |disk| == size && HasRoot(disk) && CreationsOk(creations)
        ensures RunsAgree(disk, creations)
      {
        DiskRunAgrees(disk, creations);
      }
    } else {
      RootedClobbers(size);
    }
  }

  /** Marking a block leaves a zero byte other than 1, but for a block whose bit is the byte's lowest. */
  lemma MarkedByte(bytes: Bytes, block: int, at: int)
    requires 0 <= block < 8 * |bytes| && 0 <= at < |bytes| && bytes[at] == 0 && bytes[block / 8] == 0
    requires at == block / 8 ==> block % 8 != 0
    ensures SetBit(bytes, block)[at] != 1
  {
    MaskValues();
    if at == block / 8 {
      assert 0 | Mask(block % 8) == Mask(block % 8);
      MaskIsOneOf(block % 8);
    }
  }

  /** A block written over byte `at` of the bitmap. */
  lemma WrittenOver(disk: Bytes, n: nat, block: int, contents: Bytes)
    requires HasNode(disk, block) && |contents| == BLOCK_SIZE
    requires BLOCK_SIZE + n <= |disk| && 1 <= block && block * BLOCK_SIZE < BLOCK_SIZE + n
    ensures BitmapOf(BlockWritten(disk, block, contents), n)[block * BLOCK_SIZE - BLOCK_SIZE] == contents[0]
  {
    OverwrittenParts(disk, block * BLOCK_SIZE, contents);
    assert BlockWritten(disk, block, contents)[block * BLOCK_SIZE] == contents[0];
  }

  /** Where a bitmap that does not fit is overwritten. */
  lemma ClobberedAt(size: nat)
    requires Roomy(size) && BitmapCovers(size) && !BitmapFits(Regions(size))
    ensures var l := Regions(size); var block := l.node_table_start; var n := l.bitmap_size_bytes;
      && 1 <= block && block * BLOCK_SIZE < BLOCK_SIZE + n && BLOCK_SIZE + n <= size && (block + 1) * BLOCK_SIZE <= size
      && l.node_table_end < 8 * n
      && Areas(l)[0].lo == block <= Areas(l)[0].hi == l.node_table_end
      && (block * BLOCK_SIZE - BLOCK_SIZE == block / 8 ==> block == 1)
      && (block > 1 ==> block / 8 < block * BLOCK_SIZE - BLOCK_SIZE)
  {
    AreasOnDisk(size);
    AreasOkIff(size, seq(Regions(size).bitmap_size_bytes, _ => 0));
  }

  /** When the node table's first block is handed out and the bitmap does not fit, what is written lands on it. */
  lemma FirstClobbers(disk: Bytes, creation: Creation)
    requires Roomy(|disk|) && BitmapCovers(|disk|) && !BitmapFits(Regions(|disk|))
    requires CreationsOk([creation]) && creation.area == 0 && |creation.contents| == BLOCK_SIZE
    requires var l := Regions(|disk|); var n := l.bitmap_size_bytes; var block := l.node_table_start;
      var at := block * BLOCK_SIZE - BLOCK_SIZE;
      && 0 <= n && BLOCK_SIZE + n <= |disk| && 0 <= block < 8 * n && 0 <= at < n && l.node_table_end < 8 * n
      && LeastFree(BitmapOf(disk, n), block, l.node_table_end) == block
      && SetBit(BitmapOf(disk, n), block)[at] != creation.contents[0]
    ensures !RunsAgree(disk, [creation])
  {
    ClobberedAt(|disk|);
    var l := Regions(|disk|);
    var n := l.bitmap_size_bytes;
    hide Regions, Areas, BitmapFits, BitmapCovers, Roomy, Bit, SetBit, RunsAgree, BlockWritten;
    var block := l.node_table_start;
    var bitmap := SetBit(BitmapOf(disk, n), block);
    var marked := Overwritten(disk, BLOCK_SIZE, bitmap);
    assert Reserve(BitmapOf(disk, n), Areas(l)[0]) == (block, bitmap);
    assert Created(disk, creation) == (block, BlockWritten(marked, block, creation.contents));
    WrittenOver(marked, n, block, creation.contents);
    RunOfOne(disk, creation, BlockWritten(marked, block, creation.contents), bitmap);
  }

  /** The name "root" behind some state. */
  function RootNode(state: bv8): (r: Bytes)
    ensures |r| == BLOCK_SIZE && r[0] == state && IsRoot(r)
  {
    var r := [state, 114, 111, 111, 116, 0] + seq(BLOCK_SIZE - 6, _ => 0);
    assert r[1..6] == [114, 111, 111, 116, 0];
    r
  }

  /** A disk with a root and otherwise empty. */
  lemma RootedDisk(size: nat) returns (disk: Bytes)
    requires Roomy(size) && BitmapCovers(size) && !BitmapFits(Regions(size))
    ensures |disk| == size && HasRoot(disk)
    ensures var l := Regions(size); var n := l.bitmap_size_bytes; var block := l.node_table_start;
      && 0 <= block / 8 < n && 0 <= block * BLOCK_SIZE - BLOCK_SIZE < n && BLOCK_SIZE + n <= size
      && BitmapOf(disk, n)[block * BLOCK_SIZE - BLOCK_SIZE] == 0 && BitmapOf(disk, n)[block / 8] == 0
  {
    ClobberedAt(size);
    var l := Regions(size);
    var n := l.bitmap_size_bytes;
    var block := l.node_table_start;
    hide Regions, Areas, BitmapFits, BitmapCovers, Roomy, RootNode;
    var zeros: Bytes := seq(size, _ => 0);
    disk := BlockWritten(zeros, block, RootNode(0));
    WrittenOver(zeros, n, block, RootNode(0));
    OverwrittenParts(zeros, block * BLOCK_SIZE, RootNode(0));
    if block > 1 {
      OverwrittenBefore(zeros, block * BLOCK_SIZE, RootNode(0), BLOCK_SIZE, block * BLOCK_SIZE);
      assert disk[BLOCK_SIZE..block * BLOCK_SIZE][block / 8] == zeros[BLOCK_SIZE..block * BLOCK_SIZE][block / 8];
    }
  }

  lemma RootedClobbers(size: nat)
    requires Roomy(size) && BitmapCovers(size) && !BitmapFits(Regions(size))
    ensures exists disk: Bytes, creations: seq<Creation> ::
      |disk| == size && HasRoot(disk) && CreationsOk(creations) && !RunsAgree(disk, creations)
  {
    ClobberedAt(size);
    hide RunsAgree, HasRoot, Areas, BitmapFits, BitmapCovers, Roomy, Bit, SetBit;
    var disk := RootedDisk(size);
    var l := Regions(size);
    var n := l.bitmap_size_bytes;
    hide Regions;
    var block := l.node_table_start;
    var creation := Creation(0, seq(BLOCK_SIZE, _ => 1));
    ByteFree(BitmapOf(disk, n), block);
    MarkedByte(BitmapOf(disk, n), block, block * BLOCK_SIZE - BLOCK_SIZE);
    FirstClobbers(disk, creation);
    assert |disk| == size && CreationsOk([creation]) && !RunsAgree(disk, [creation]);
  }

  lemma ByteFree(bytes: Bytes, k: int)
    requires 0 <= k < 8 * |bytes| && bytes[k / 8] == 0
    ensures !Bit(bytes, k)
  {}

  lemma RunOfOne(disk: Bytes, creation: Creation, written: Bytes, bitmap: Bytes)
    requires Roomy(|disk|) && BitmapCovers(|disk|) && CreationsOk([creation]) && creation.area == 0
    requires Created(disk, creation).1 == written
    requires var l := Regions(|disk|); var n := l.bitmap_size_bytes;
      && 0 <= n && BLOCK_SIZE + n <= |disk| && 0 <= Areas(l)[0].lo && Areas(l)[0].hi < 8 * n
      && Reserve(BitmapOf(disk, n), Areas(l)[0]).1 == bitmap && BitmapOf(written, n) != bitmap
    ensures !RunsAgree(disk, [creation])
  {
    var l := Regions(|disk|);
    var bytes := BitmapOf(disk, l.bitmap_size_bytes);
    AreasOkIff(|disk|, bytes);
    hide Regions, Areas, Created, Reserve, BitmapCovers, Roomy;
    assert [creation][..0] == [] && Calls([creation])[..0] == [];
    assert DiskRun(disk, [creation]).1 == written;
    assert Calls([creation]) == [0];
    assert Run(bytes, Areas(l), Calls([creation])).1 == bitmap;
  }

  /** The disk after `format_disk` has formatted it: first the bitmap, then the root node over what is there. */
  ghost function AfterFormat(disk: Bytes, node: Bytes): (r: Bytes)
    requires 32768 <= |disk| / BLOCK_SIZE && |node| == BLOCK_SIZE
    ensures |r| == |disk|
  {
    RegionsValid(|disk|);
    var l := Regions(|disk|);
    Overwritten(Overwritten(disk, BLOCK_SIZE, FormattedBitmap(l.bitmap_size_bytes)), l.node_table_start * BLOCK_SIZE,
      node)
  }

  /** The root node may overwrite the bitmap's tail, but not the part that speaks of the node table. */
  lemma NodeBitsAfterFormat(disk: Bytes, node: Bytes, k: int)
    requires 32768 <= |disk| / BLOCK_SIZE && |node| == BLOCK_SIZE && 0 <= k <= Regions(|disk|).node_table_end + 1
    ensures var n := Regions(|disk|).bitmap_size_bytes;
      0 <= n && BLOCK_SIZE + n <= |disk| && k < 8 * n && (Bit(BitmapOf(AfterFormat(disk, node), n), k) <==> k < 3)
  {
    hide FormattedBitmap;
    RegionsValid(|disk|);
    var l := Regions(|disk|);
    var n := l.bitmap_size_bytes;
    assert k < 8 * n && k / 8 < l.bitmap_end * BLOCK_SIZE;
    var clean := FormattedBitmap(n);
    var marked := Overwritten(disk, BLOCK_SIZE, clean);
    OverwrittenParts(disk, BLOCK_SIZE, clean);
    assert marked[BLOCK_SIZE + k / 8] == clean[k / 8];
    assert AfterFormat(disk, node)[BLOCK_SIZE + k / 8] == marked[BLOCK_SIZE + k / 8];
    hide Regions, AfterFormat;
    assert BitmapOf(AfterFormat(disk, node), n)[k / 8] == clean[k / 8];
    FormattedBits(n, k);
  }

  /** The first node created after formatting, on whatever the root node has left of the bitmap: block 3 when the table
      starts by block 3, else the table's first block. */
  lemma FirstNodeAfterFormat(disk: Bytes, node: Bytes)
    requires 32768 <= |disk| / BLOCK_SIZE && |node| == BLOCK_SIZE
    ensures var l := Regions(|disk|); var n := l.bitmap_size_bytes;
      && 0 <= n && BLOCK_SIZE + n <= |disk| && 0 <= l.node_table_start && l.node_table_end < 8 * n
      && LeastFree(BitmapOf(AfterFormat(disk, node), n), l.node_table_start, l.node_table_end)
         == if l.node_table_start <= 3 then 3 else l.node_table_start
  {
    RegionsValid(|disk|);
    var l := Regions(|disk|);
    hide Regions, Bit, AfterFormat;
    TableHasRoom(|disk|);
    var bytes := BitmapOf(AfterFormat(disk, node), l.bitmap_size_bytes);
    NodeBitsAfterFormat(disk, node, l.node_table_end);
    forall k | l.node_table_start <= k <= l.node_table_end ensures Bit(bytes, k) <==> k < 3 {
      NodeBitsAfterFormat(disk, node, k);
    }
    assert !Bit(bytes, if l.node_table_start <= 3 then 3 else l.node_table_start);
  }

  /** The first data block handed out after formatting is the one behind the node table's 1024 blocks. */
  lemma FirstDataAfterFormat(disk: Bytes, node: Bytes)
    requires 32768 <= |disk| / BLOCK_SIZE && |node| == BLOCK_SIZE
    ensures var l := Regions(|disk|); var n := l.bitmap_size_bytes;
      && 0 <= n && BLOCK_SIZE + n <= |disk| && 0 <= Areas(l)[1].lo
      && IsFirstFree(BitmapOf(AfterFormat(disk, node), n), Areas(l)[1].lo, Areas(l)[1].hi,
           1 + |disk| / BLOCK_SIZE / 32768 + 1024)
  {
    RegionsValid(|disk|);
    var l := Regions(|disk|);
    var first := 1 + |disk| / BLOCK_SIZE / 32768 + 1024;
    EnoughRoom(|disk|);
    AreasSplit(|disk|, first);
    AreasSplit(|disk|, first - 1);
    hide Bit, AfterFormat;
    NodeBitsAfterFormat(disk, node, first);
  }

  /** Formatting writes the bitmap and the first node, and nothing else, and leaves a root: a second start finds it. */
  lemma FormatLeavesRoot(disk: Bytes, node: Bytes)
    requires 32768 <= |disk| / BLOCK_SIZE && |node| == BLOCK_SIZE && IsRoot(node)
    ensures HasRoot(AfterFormat(disk, node))
    ensures var l := Regions(|disk|); var root := l.node_table_start * BLOCK_SIZE;
      forall i :: 0 <= i < |disk| && AfterFormat(disk, node)[i] != disk[i] ==>
        BLOCK_SIZE <= i < BLOCK_SIZE + l.bitmap_size_bytes || root <= i < root + BLOCK_SIZE
  {
    RegionsValid(|disk|);
    var l := Regions(|disk|);
    var n := l.bitmap_size_bytes;
    var root := l.node_table_start * BLOCK_SIZE;
    hide Regions, FormattedBitmap, IsRoot, Overwritten;
    var marked := Overwritten(disk, BLOCK_SIZE, FormattedBitmap(n));
    assert AfterFormat(disk, node) == Overwritten(marked, root, node);
    hide AfterFormat;
    OverwrittenParts(marked, root, node);
    assert NodeAt(AfterFormat(disk, node), l.node_table_start) == node;
    forall i | 0 <= i < |disk| && AfterFormat(disk, node)[i] != disk[i]
      ensures BLOCK_SIZE <= i < BLOCK_SIZE + n || root <= i < root + BLOCK_SIZE
    {
      OverwrittenAt(marked, root, node, i);
      OverwrittenAt(disk, BLOCK_SIZE, FormattedBitmap(n), i);
    }
  }

  lemma OverwrittenAt(disk: Bytes, offset: int, bytes: Bytes, i: int)
    requires 0 <= offset && offset + |bytes| <= |disk| && 0 <= i < |disk|
    ensures |Overwritten(disk, offset, bytes)| == |disk|
    ensures !(offset <= i < offset + |bytes|) ==> Overwritten(disk, offset, bytes)[i] == disk[i]
  {}

  lemma TableHasRoom(size: nat)
    ensures Regions(size).node_table_start >= 1
    ensures Regions(size).node_table_end == Regions(size).node_table_start + NODE_TABLE_BLOCKS - 1
    ensures Regions(size).node_table_start >= 3 <==> 65536 <= size / BLOCK_SIZE
  {}

  /** On the disk as formatting leaves it a run agrees exactly when the bitmap stays in its blocks or the disk has fewer
      than 65536 blocks: there formatting has marked block 2, the only one of the areas the bitmap reaches. */
  lemma FormattedRunsAgreeIff(size: nat)
    requires 32768 <= size / BLOCK_SIZE && BitmapCovers(size)
    ensures Roomy(size)
    ensures (forall disk: Bytes, node: Bytes, creations: seq<Creation> ::
              |disk| == size && |node| == BLOCK_SIZE && IsRoot(node) && CreationsOk(creations) ==>
                RunsAgree(AfterFormat(disk, node), creations))
       <==> BitmapFits(Regions(size)) || size / BLOCK_SIZE < 65536
  {
    EnoughRoom(size);
    if BitmapFits(Regions(size)) || size / BLOCK_SIZE < 65536 {
      forall disk: Bytes, node: Bytes, creations: seq<Creation> |
        |disk| == size && |node| == BLOCK_SIZE && IsRoot(node) && CreationsOk(creations)
        ensures RunsAgree(AfterFormat(disk, node), creations)
      {
        FormattedClear(disk, node);
        DiskRunAgrees(AfterFormat(disk, node), creations);
      }
    } else {
      FormattedClobbers(size);
    }
  }

  lemma EnoughRoom(size: nat)
    requires 32768 <= size / BLOCK_SIZE
    ensures Roomy(size)
  {}

  lemma FormattedClear(disk: Bytes, node: Bytes)
    requires 32768 <= |disk| / BLOCK_SIZE && |node| == BLOCK_SIZE && BitmapCovers(|disk|) && Roomy(|disk|)
    requires BitmapFits(Regions(|disk|)) || |disk| / BLOCK_SIZE < 65536
    ensures Clear(AfterFormat(disk, node))
  {
    TableHasRoom(|disk|);
    hide Regions, Bit, AfterFormat, BitmapFits, BitmapCovers, Roomy;
    NodeBitsAfterFormat(disk, node, 2);
  }

  lemma FormattedClobbers(size: nat)
    requires 65536 <= size / BLOCK_SIZE && BitmapCovers(size) && Roomy(size) && !BitmapFits(Regions(size))
    ensures exists disk: Bytes, node: Bytes, creations: seq<Creation> ::
      && |disk| == size && |node| == BLOCK_SIZE && IsRoot(node) && CreationsOk(creations)
      && !RunsAgree(AfterFormat(disk, node), creations)
  {
    ClobberedAt(size);
    TableHasRoom(size);
    RegionsValid(size);
    hide RunsAgree, Regions, Areas, BitmapFits, BitmapCovers, Roomy, Bit, AfterFormat, RootNode, IsRoot, LeastFree;
    var l := Regions(size);
    var n := l.bitmap_size_bytes;
    var block := l.node_table_start;
    var disk: Bytes := seq(size, _ => 0);
    var node := RootNode(2);
    var creation := Creation(0, seq(BLOCK_SIZE, _ => 1));
    var formatted := AfterFormat(disk, node);
    FirstNodeAfterFormat(disk, node);
    RootOverBitmap(disk, node);
    FirstClobbers(formatted, creation);
    assert !RunsAgree(AfterFormat(disk, node), [creation]) && CreationsOk([creation]);
  }

  /** Where the bitmap does not fit, the root node's first byte is a byte of the bitmap. */
  lemma RootOverBitmap(disk: Bytes, node: Bytes)
    requires 32768 <= |disk| / BLOCK_SIZE && |node| == BLOCK_SIZE && Roomy(|disk|) && BitmapCovers(|disk|)
    requires !BitmapFits(Regions(|disk|))
    ensures var l := Regions(|disk|); var n := l.bitmap_size_bytes; var block := l.node_table_start;
      && 0 <= block * BLOCK_SIZE - BLOCK_SIZE < n && BLOCK_SIZE + n <= |disk|
      && BitmapOf(AfterFormat(disk, node), n)[block * BLOCK_SIZE - BLOCK_SIZE] == node[0]
  {
    ClobberedAt(|disk|);
    RegionsValid(|disk|);
    var l := Regions(|disk|);
    hide Regions, Areas, BitmapFits, BitmapCovers, Roomy, FormattedBitmap;
    WrittenOver(Overwritten(disk, BLOCK_SIZE, FormattedBitmap(l.bitmap_size_bytes)), l.bitmap_size_bytes,
      l.node_table_start, node);
  }

  /** So the root directory's own block is handed out again exactly when the bitmap takes two blocks or more. */
  lemma RootHandedOutIff(disk: Bytes, node: Bytes)
    requires 32768 <= |disk| / BLOCK_SIZE && |node| == BLOCK_SIZE
    ensures var l := Regions(|disk|); var n := l.bitmap_size_bytes;
      && 0 <= n && BLOCK_SIZE + n <= |disk| && 0 <= l.node_table_start && l.node_table_end < 8 * n
      && (LeastFree(BitmapOf(AfterFormat(disk, node), n), l.node_table_start, l.node_table_end) == l.node_table_start
          <==> 65536 <= |disk| / BLOCK_SIZE)
  {
    FirstNodeAfterFormat(disk, node);
    TableHasRoom(|disk|);
  }

  /** The part of an area whose blocks have a bit among `n` bytes. */
  function Clipped(area: Area, n: int): Area {
    Area(area.lo, if area.hi < 8 * n then area.hi else 8 * n - 1)
  }

  /** `block` is the first free block from `lo` to `hi` among those with a bit, or -1 when none of them is free. */
  ghost predicate IsFirstFree(bytes: Bytes, lo: int, hi: int, block: int) {
    if block == -1 then forall k :: lo <= k <= hi && 0 <= k < 8 * |bytes| ==> Bit(bytes, k)
    else
      && lo <= block <= hi && 0 <= block < 8 * |bytes| && !Bit(bytes, block)
      && forall k :: lo <= k < block && 0 <= k < 8 * |bytes| ==> Bit(bytes, k)
  }

  // ---- the server's globals and its disk ----

  class Disco {
    const disco: array<bv8>
    var bitmap_size_bytes: int
    var bitmap_start: int
    var bitmap_end: int
    var node_table_start: int
    var node_table_end: int
    var data_blocks_start: int
    var data_blocks_end: int

    constructor (disco: array<bv8>)
      ensures this.disco == disco
    {
      this.disco := disco;
    }

    function Bounds(): Layout
      reads this
    {
      Layout(bitmap_size_bytes, bitmap_start, bitmap_end, node_table_start, node_table_end, data_blocks_start,
        data_blocks_end)
    }

    /** The bitmap is on the disk. */
    ghost predicate Valid()
      reads this
    {
      && 0 <= bitmap_size_bytes && bitmap_start == 1
      && BLOCK_SIZE + bitmap_size_bytes <= disco.Length
    }

    /** The search stays inside the bitmap: every block of the area has a bit, or one that has is free. Past the
        bitmap's last byte the source tests memory it never wrote. */
    ghost predicate Searchable(area: int)
      reads this, disco
    {
      && Valid() && (area == 0 || area == 1)
      && var a := Areas(Bounds())[area];
      && 0 <= a.lo
      && (a.hi < 8 * bitmap_size_bytes || LeastFree(Bitmap(), a.lo, Clipped(a, bitmap_size_bytes).hi) != -1)
    }

    ghost function Bitmap(): Bytes
      reads this, disco
      requires Valid()
    {
      disco[BLOCK_SIZE..BLOCK_SIZE + bitmap_size_bytes]
    }

    /** A copy of `n` bytes of the disk from `offset`; the rest of the buffer is whatever it was. */
    method Fread(buffer: array<bv8>, n: int, offset: int)
      requires 0 <= n <= buffer.Length && 0 <= offset && offset + n <= disco.Length && buffer != disco
      modifies buffer
      ensures buffer[..n] == disco[offset..offset + n]
    {
      forall i | 0 <= i < n {
        buffer[i] := disco[offset + i];
      }
    }

    method Fwrite(buffer: array<bv8>, offset: int)
      requires 0 <= offset && offset + buffer.Length <= disco.Length && buffer != disco
      modifies disco
      ensures disco[..] == Overwritten(old(disco[..]), offset, buffer[..])
    {
      forall i | 0 <= i < buffer.Length {
        disco[offset + i] := buffer[i];
      }
    }

    /** `find_free_block`: area 0 is the node table, area 1 the data blocks. */
    method FindFreeBlock(area: int) returns (block: int)
      requires Searchable(area)
      ensures var a := Clipped(Areas(Bounds())[area], bitmap_size_bytes); block == LeastFree(Bitmap(), a.lo, a.hi)
      ensures area == 0 ==> IsFirstFree(Bitmap(), node_table_start, node_table_end, block)
      ensures area == 1 ==> IsFirstFree(Bitmap(), data_blocks_start, data_blocks_end, block)
    {
      hide Bit;
      var bitmap := new bv8[bitmap_size_bytes];
      Fread(bitmap, bitmap_size_bytes, bitmap_start * BLOCK_SIZE);
      ghost var bits := bitmap[..];
      assert bits == Bitmap();
      var area_start, area_end;
      if area == 0 {
        area_start, area_end := node_table_start, node_table_end;
      } else {
        area_start, area_end := data_blocks_start, data_blocks_end;
      }
      ghost var last := Clipped(Area(area_start, area_end), bitmap_size_bytes).hi;
      var i := area_start;
      while i <= area_end
        invariant area_start <= i
        invariant bitmap[..] == bits
        invariant LeastFree(bits, area_start, last) == LeastFree(bits, i, last)
      {
        var occupied := TestBit(bitmap, i);
        if !occupied {
          return i;
        }
        i := i + 1;
      }
      return -1;
    }

    /** `set_block_as_occupied` reads the bitmap, sets one bit and writes the bitmap back. */
    method SetBlockAsOccupied(block_number: int)
      requires Valid() && 0 <= block_number < 8 * bitmap_size_bytes
      modifies disco
      ensures Bitmap() == SetBit(old(Bitmap()), block_number)
      ensures disco[..BLOCK_SIZE] == old(disco[..BLOCK_SIZE])
      ensures disco[BLOCK_SIZE + bitmap_size_bytes..] == old(disco[BLOCK_SIZE + bitmap_size_bytes..])
    {
      var bitmap := new bv8[bitmap_size_bytes];
      Fread(bitmap, bitmap_size_bytes, bitmap_start * BLOCK_SIZE);
      assert bitmap[..] == Bitmap();
      SetBitInPlace(bitmap, block_number);
      Fwrite(bitmap, bitmap_start * BLOCK_SIZE);
      OverwrittenParts(old(disco[..]), BLOCK_SIZE, bitmap[..]);
    }

    /** The search and the marking that `action_mknod` makes of it. */
    method ReserveBlock(area: int) returns (block: int)
      requires Searchable(area)
      modifies disco
      ensures (block, Bitmap()) == Reserve(old(Bitmap()), Clipped(Areas(Bounds())[area], bitmap_size_bytes))
      ensures disco[..BLOCK_SIZE] == old(disco[..BLOCK_SIZE])
      ensures disco[BLOCK_SIZE + bitmap_size_bytes..] == old(disco[BLOCK_SIZE + bitmap_size_bytes..])
    {
      block := FindFreeBlock(area);
      if block != -1 {
        SetBlockAsOccupied(block);
      }
    }

    /** `format_bitmap_nodetable`: reads one block, clears every bit from 2 on and writes the whole bitmap. Bytes of the
        buffer past the first block are never read from the disk; it makes no difference, their bits are cleared. */
    method FormatBitmapNodetable()
      requires Valid() && BLOCK_SIZE <= bitmap_size_bytes
      modifies disco
      ensures forall k :: 0 <= k < 8 * bitmap_size_bytes ==> (Bit(Bitmap(), k) <==> k < 2 && old(Bit(Bitmap(), k)))
      ensures disco[..BLOCK_SIZE] == old(disco[..BLOCK_SIZE])
      ensures disco[BLOCK_SIZE + bitmap_size_bytes..] == old(disco[BLOCK_SIZE + bitmap_size_bytes..])
    {
      var bitmap_blocks := new bv8[bitmap_size_bytes];
      Fread(bitmap_blocks, BLOCK_SIZE, bitmap_start * BLOCK_SIZE);
      ghost var read := bitmap_blocks[..];
      assert read[0] == bitmap_blocks[..BLOCK_SIZE][0] == Bitmap()[0];
      var area_start := 2;
      var area_end := bitmap_size_bytes * 8 - 1;
      var i := area_start;
      while i <= area_end
        invariant 2 <= i <= area_end + 1
        invariant forall k :: 0 <= k < 8 * bitmap_size_bytes ==>
          (Bit(bitmap_blocks[..], k) <==> (k < 2 || k >= i) && Bit(read, k))
        invariant disco[..] == old(disco[..])
      {
        ghost var before := bitmap_blocks[..];
        var occupied := TestBit(bitmap_blocks, i);
        if occupied {
          CleanBit(bitmap_blocks, i);
          forall k | 0 <= k < 8 * bitmap_size_bytes
            ensures Bit(bitmap_blocks[..], k) <==> k != i && Bit(before, k)
          {
            ClearBitAt(before, i, k);
          }
        }
        i := i + 1;
      }
      Fwrite(bitmap_blocks, bitmap_start * BLOCK_SIZE);
      OverwrittenParts(old(disco[..]), BLOCK_SIZE, bitmap_blocks[..]);
      assert Bitmap() == bitmap_blocks[..];
    }

    /** The bounds part of `format_disk`. */
    method SetBounds()
      modifies this
      ensures Bounds() == Regions(disco.Length)
    {
      var disk_size_bytes := disco.Length;
      var header_size_blocks := 1;
      var bitmap_size_blocks := disk_size_bytes / BLOCK_SIZE / 8 / BLOCK_SIZE;
      bitmap_size_bytes := disk_size_bytes / BLOCK_SIZE / 8;
      bitmap_start := 1;
      bitmap_end := bitmap_start + bitmap_size_blocks - 1;
      var node_table_size_blocks := 1024;
      node_table_start := bitmap_end + 1;
      node_table_end := node_table_start + node_table_size_blocks - 1;
      var data_blocks_size_blocks :=
        disk_size_bytes / BLOCK_SIZE - header_size_blocks - bitmap_size_blocks - node_table_size_blocks;
      data_blocks_start := node_table_end + 1;
      data_blocks_end := data_blocks_start + data_blocks_size_blocks - 1;
    }

    /** `format_disk`: a disk whose first node is the root is left alone; any other gets a bitmap with blocks 0, 1 and
        2 taken and then the root node in the first block of the node table, which lands on the bitmap's tail if it
        does not fit. */
    method FormatDisk(file_node: array<bv8>) returns (formatted: bool)
      requires file_node.Length == BLOCK_SIZE && file_node != disco
      requires 32768 <= disco.Length / BLOCK_SIZE
      modifies this, disco
      ensures Bounds() == Regions(disco.Length) && Valid()
      ensures HasNode(disco[..], node_table_start)
      ensures formatted == !IsRoot(NodeAt(old(disco[..]), node_table_start))
      ensures disco[..] == if formatted then AfterFormat(old(disco[..]), file_node[..]) else old(disco[..])
      ensures formatted && BitmapFits(Bounds()) ==> Bitmap() == FormattedBitmap(bitmap_size_bytes)
    {
      hide Regions, BitmapFits, BitmapCovers, FormattedBitmap, IsRoot, Bit;
      SetBounds();
      RegionsValid(disco.Length);
      var first_node := new bv8[BLOCK_SIZE];
      Fread(first_node, BLOCK_SIZE, node_table_start * BLOCK_SIZE);
      assert first_node[..] == first_node[..BLOCK_SIZE];
      if IsRoot(first_node[..]) {
        return false;
      }
      Reformat(file_node);
      return true;
    }

    /** A start of the server on a disk without a root, and its first search for a node block: from 65536 blocks on the
        search answers the root's own block. */
    method StartAndSearch(file_node: array<bv8>) returns (formatted: bool, block: int)
      requires file_node.Length == BLOCK_SIZE && file_node != disco
      requires 32768 <= disco.Length / BLOCK_SIZE
      modifies this, disco
      ensures Bounds() == Regions(disco.Length)
      ensures HasNode(old(disco[..]), node_table_start)
      ensures formatted == !IsRoot(NodeAt(old(disco[..]), node_table_start))
      ensures formatted ==> block == if node_table_start <= 3 then 3 else node_table_start
      ensures formatted ==> (block == node_table_start <==> 65536 <= disco.Length / BLOCK_SIZE)
    {
      hide Regions, AfterFormat, Bit, IsRoot, BitmapFits, FormattedBitmap, LeastFree;
      ghost var before := disco[..];
      formatted := FormatDisk(file_node);
      FirstNodeAfterFormat(before, file_node[..]);
      TableHasRoom(disco.Length);
      assert disco[..][BLOCK_SIZE..BLOCK_SIZE + bitmap_size_bytes] == Bitmap();
      block := FindFreeBlock(0);
    }

    /** The formatting branch: bitmap first, then the root node. */
    method Reformat(file_node: array<bv8>)
      requires Valid() && BLOCK_SIZE <= bitmap_size_bytes && file_node != disco
      requires 0 <= node_table_start && node_table_start * BLOCK_SIZE + file_node.Length <= disco.Length
      modifies disco
      ensures disco[..] ==
        Overwritten(Overwritten(old(disco[..]), BLOCK_SIZE, FormattedBitmap(bitmap_size_bytes)),
                    node_table_start * BLOCK_SIZE, file_node[..])
      ensures BLOCK_SIZE + bitmap_size_bytes <= node_table_start * BLOCK_SIZE ==>
        Bitmap() == FormattedBitmap(bitmap_size_bytes)
    {
      hide FormattedBitmap, Bit, Overwritten;
      FormatBitmapNodetable();
      MarkReserved();
      ReplacedBitmap(old(disco[..]), disco[..], bitmap_size_bytes);
      ghost var marked := disco[..];
      Fwrite(file_node, node_table_start * BLOCK_SIZE);
      if BLOCK_SIZE + bitmap_size_bytes <= node_table_start * BLOCK_SIZE {
        OverwrittenBefore(marked, node_table_start * BLOCK_SIZE, file_node[..], BLOCK_SIZE,
          BLOCK_SIZE + bitmap_size_bytes);
      }
    }

    method MarkReserved()
      requires Valid() && 1 <= bitmap_size_bytes
      requires forall k :: 0 <= k < 8 * bitmap_size_bytes && Bit(Bitmap(), k) ==> k < 2
      modifies disco
      ensures Bitmap() == FormattedBitmap(bitmap_size_bytes)
      ensures disco[..BLOCK_SIZE] == old(disco[..BLOCK_SIZE])
      ensures disco[BLOCK_SIZE + bitmap_size_bytes..] == old(disco[BLOCK_SIZE + bitmap_size_bytes..])
    {
      ghost var was := Bitmap();
      SetBlockAsOccupied(0);
      ghost var one := Bitmap();
      SetBlockAsOccupied(1);
      ghost var two := Bitmap();
      SetBlockAsOccupied(2);
      forall k | 0 <= k < 8 * bitmap_size_bytes ensures Bit(Bitmap(), k) <==> k < 3 {
        SetBitAt(was, 0, k);
        SetBitAt(one, 1, k);
        SetBitAt(two, 2, k);
      }
      FromBits(Bitmap());
    }
  }
}
