// The block bitmap of the SAC file system: bits LSB first inside each byte, first-fit allocation over an area.
module SacBitmap {
  type Bytes = seq<bv8>

  // ---- bits ----

  function Mask(i: int): bv8
    requires 0 <= i < 8
  {
    (1 as bv8) << i
  }

  predicate Bit(bytes: Bytes, k: int)
    requires 0 <= k < 8 * |bytes|
  {
    bytes[k / 8] & Mask(k % 8) != 0
  }

  function SetBit(bytes: Bytes, k: int): Bytes
    requires 0 <= k < 8 * |bytes|
  {
    bytes[k / 8 := bytes[k / 8] | Mask(k % 8)]
  }

  function ClearBit(bytes: Bytes, k: int): Bytes
    requires 0 <= k < 8 * |bytes|
  {
    bytes[k / 8 := bytes[k / 8] & !Mask(k % 8)]
  }

  lemma MaskValues()
    ensures Mask(0) == 1 && Mask(1) == 2 && Mask(2) == 4 && Mask(3) == 8
    ensures Mask(4) == 16 && Mask(5) == 32 && Mask(6) == 64 && Mask(7) == 128
  {}

  lemma MaskIsOneOf(i: int)
    requires 0 <= i < 8
    ensures i == 0 || i == 1 || i == 2 || i == 3 || i == 4 || i == 5 || i == 6 || i == 7
  {}

  lemma MasksDisjoint(i: int, j: int)
    requires 0 <= i < 8 && 0 <= j < 8
    ensures Mask(i) != 0
    ensures i != j ==> Mask(i) & Mask(j) == 0
  {
    MaskValues();
    MaskIsOneOf(i);
    MaskIsOneOf(j);
  }

  lemma OrThenTest(b: bv8, m: bv8, t: bv8)
    ensures (b | m) & t != 0 <==> m & t != 0 || b & t != 0
  {}

  lemma ClearThenTest(b: bv8, m: bv8, t: bv8)
    ensures m & t == 0 ==> (b & !m) & t == b & t
    ensures m == t ==> (b & !m) & t == 0
  {}

  /** Setting a bit changes that bit and no other. */
  lemma SetBitAt(bytes: Bytes, k: int, j: int)
    requires 0 <= k < 8 * |bytes| && 0 <= j < 8 * |bytes|
    ensures Bit(SetBit(bytes, k), j) <==> j == k || Bit(bytes, j)
  {
    if k / 8 == j / 8 {
      MasksDisjoint(k % 8, j % 8);
      OrThenTest(bytes[k / 8], Mask(k % 8), Mask(j % 8));
      assert k % 8 == j % 8 <==> k == j;
      assert Mask(k % 8) & Mask(k % 8) == Mask(k % 8);
    }
  }

  lemma ClearBitAt(bytes: Bytes, k: int, j: int)
    requires 0 <= k < 8 * |bytes| && 0 <= j < 8 * |bytes|
    ensures Bit(ClearBit(bytes, k), j) <==> j != k && Bit(bytes, j)
  {
    if k / 8 == j / 8 {
      MasksDisjoint(k % 8, j % 8);
      ClearThenTest(bytes[k / 8], Mask(k % 8), Mask(j % 8));
      assert k % 8 == j % 8 <==> k == j;
    }
  }

  /** A byte is its eight bits. */
  lemma ByteFromBits(b: bv8, c: bv8)
    requires forall i :: 0 <= i < 8 ==> (b & Mask(i) != 0 <==> c & Mask(i) != 0)
    ensures b == c
  {
    MaskValues();
    assert b & Mask(0) != 0 <==> c & Mask(0) != 0;
    assert b & Mask(1) != 0 <==> c & Mask(1) != 0;
    assert b & Mask(2) != 0 <==> c & Mask(2) != 0;
    assert b & Mask(3) != 0 <==> c & Mask(3) != 0;
    assert b & Mask(4) != 0 <==> c & Mask(4) != 0;
    assert b & Mask(5) != 0 <==> c & Mask(5) != 0;
    assert b & Mask(6) != 0 <==> c & Mask(6) != 0;
    assert b & Mask(7) != 0 <==> c & Mask(7) != 0;
  }

  // ---- first fit ----

  /** The least free block of lo..hi, or -1. */
  function LeastFree(bytes: Bytes, lo: int, hi: int): (r: int)
    requires 0 <= lo && hi < 8 * |bytes|
    ensures r == -1 <==> forall k :: lo <= k <= hi ==> Bit(bytes, k)
    ensures r != -1 ==> lo <= r <= hi && !Bit(bytes, r) && forall k :: lo <= k < r ==> Bit(bytes, k)
    decreases hi - lo + 1
  {
    if lo > hi then -1 else if !Bit(bytes, lo) then lo else LeastFree(bytes, lo + 1, hi)
  }

  ghost function FreeBlocks(bytes: Bytes, lo: int, hi: int): set<int>
    requires 0 <= lo && hi < 8 * |bytes|
  {
    set k: int | lo <= k <= hi && !Bit(bytes, k)
  }

  // ---- whole runs of find-then-mark ----

  datatype Area = Area(lo: int, hi: int)

  ghost predicate AreasOk(bytes: Bytes, areas: seq<Area>) {
    && (forall a :: 0 <= a < |areas| ==> 0 <= areas[a].lo && areas[a].hi < 8 * |bytes|)
    && forall a, b :: 0 <= a < b < |areas| ==> areas[a].hi < areas[b].lo || areas[b].hi < areas[a].lo
  }

  /** One call: look for a block of the area and, if there is one, mark it. */
  function Reserve(bytes: Bytes, area: Area): (r: (int, Bytes))
    requires 0 <= area.lo && area.hi < 8 * |bytes|
    ensures |r.1| == |bytes|
  {
    var block := LeastFree(bytes, area.lo, area.hi);
    (block, if block == -1 then bytes else SetBit(bytes, block))
  }

  ghost predicate CallsOk(areas: seq<Area>, calls: seq<int>) {
    forall i :: 0 <= i < |calls| ==> 0 <= calls[i] < |areas|
  }

  /** Any interleaving of calls over the areas: the answers and the final bitmap. */
  ghost function Run(bytes: Bytes, areas: seq<Area>, calls: seq<int>): (r: (seq<int>, Bytes))
    requires AreasOk(bytes, areas) && CallsOk(areas, calls)
    ensures |r.0| == |calls| && |r.1| == |bytes|
  {
    if calls == [] then ([], bytes)
    else
      var (answers, before) := Run(bytes, areas, calls[..|calls| - 1]);
      var (block, after) := Reserve(before, areas[calls[|calls| - 1]]);
      (answers + [block], after)
  }

  /** How many of the calls are for area `a`. */
  ghost function CallsFor(calls: seq<int>, a: int): nat {
    if calls == [] then 0
    else CallsFor(calls[..|calls| - 1], a) + (if calls[|calls| - 1] == a then 1 else 0)
  }

  /** The blocks marked at the end are those marked at the start and those handed out, and nothing else. */
  lemma {:induction false} RunMarks(bytes: Bytes, areas: seq<Area>, calls: seq<int>, k: int)
    requires AreasOk(bytes, areas) && CallsOk(areas, calls) && 0 <= k < 8 * |bytes|
    ensures Bit(Run(bytes, areas, calls).1, k) <==> Bit(bytes, k) || k in Run(bytes, areas, calls).0
  {
    if calls != [] {
      var shorter := calls[..|calls| - 1];
      var (answers, before) := Run(bytes, areas, shorter);
      var block := Reserve(before, areas[calls[|calls| - 1]]).0;
      RunMarks(bytes, areas, shorter, k);
      if block != -1 {
        SetBitAt(before, block, k);
      }
      assert k in answers + [block] <==> k in answers || k == block;
    }
  }

  /** No block is ever handed out twice, nor one that was marked at the start, nor one outside the area asked for. */
  lemma {:induction false} NeverTwice(bytes: Bytes, areas: seq<Area>, calls: seq<int>)
    requires AreasOk(bytes, areas) && CallsOk(areas, calls)
    ensures var answers := Run(bytes, areas, calls).0;
      && (forall i :: 0 <= i < |answers| && answers[i] != -1 ==>
           areas[calls[i]].lo <= answers[i] <= areas[calls[i]].hi && !Bit(bytes, answers[i]))
      && forall i, j :: 0 <= i < j < |answers| && answers[i] != -1 ==> answers[i] != answers[j]
  {
    hide Bit;
    if calls != [] {
      var shorter := calls[..|calls| - 1];
      var (answers, before) := Run(bytes, areas, shorter);
      var block := Reserve(before, areas[calls[|calls| - 1]]).0;
      NeverTwice(bytes, areas, shorter);
      if block != -1 {
        RunMarks(bytes, areas, shorter, block);
      }
    }
  }

  lemma FreeShrinks(bytes: Bytes, area: Area, lo: int, hi: int)
    requires 0 <= area.lo && area.hi < 8 * |bytes| && 0 <= lo && hi < 8 * |bytes|
    ensures FreeBlocks(Reserve(bytes, area).1, lo, hi) == FreeBlocks(bytes, lo, hi) - {Reserve(bytes, area).0}
  {
    var (block, after) := Reserve(bytes, area);
    forall k | lo <= k <= hi ensures Bit(after, k) <==> Bit(bytes, k) || k == block {
      if block != -1 {
        SetBitAt(bytes, block, k);
      }
    }
  }

  ghost function Monus(x: nat, y: nat): nat { if x > y then x - y else 0 }

  /** The free blocks of an area go down by one for each call to it, until there are none; calls to other areas take
      none. */
  lemma {:induction false} FreeAfterRun(bytes: Bytes, areas: seq<Area>, calls: seq<int>, a: int)
    requires AreasOk(bytes, areas) && CallsOk(areas, calls) && 0 <= a < |areas|
    ensures |FreeBlocks(Run(bytes, areas, calls).1, areas[a].lo, areas[a].hi)|
         == Monus(|FreeBlocks(bytes, areas[a].lo, areas[a].hi)|, CallsFor(calls, a))
  {
    if calls != [] {
      var shorter := calls[..|calls| - 1];
      var before := Run(bytes, areas, shorter).1;
      var called := calls[|calls| - 1];
      FreeAfterRun(bytes, areas, shorter, a);
      FreeShrinks(before, areas[called], areas[a].lo, areas[a].hi);
      var block := Reserve(before, areas[called]).0;
      var free := FreeBlocks(before, areas[a].lo, areas[a].hi);
      if called == a {
        FullIff(before, areas[a]);
        assert block != -1 ==> block in free;
      } else {
        assert block !in free;
        assert free - {block} == free;
      }
    }
  }

  lemma FullIff(bytes: Bytes, area: Area)
    requires 0 <= area.lo && area.hi < 8 * |bytes|
    ensures LeastFree(bytes, area.lo, area.hi) == -1 <==> |FreeBlocks(bytes, area.lo, area.hi)| == 0
  {
    var free := FreeBlocks(bytes, area.lo, area.hi);
    if |free| == 0 {
      assert forall k :: area.lo <= k <= area.hi && !Bit(bytes, k) ==> k in free;
    }
    if LeastFree(bytes, area.lo, area.hi) == -1 {
      assert free == {};
    }
  }

  /** A call fails exactly when the earlier calls to its area were at least as many as the blocks free at the start. */
  lemma FailsIffFull(bytes: Bytes, areas: seq<Area>, calls: seq<int>, i: nat)
    requires AreasOk(bytes, areas) && CallsOk(areas, calls) && i < |calls|
    ensures Run(bytes, areas, calls).0[i] == -1
       <==> |FreeBlocks(bytes, areas[calls[i]].lo, areas[calls[i]].hi)| <= CallsFor(calls[..i], calls[i])
  {
    RunPrefix(bytes, areas, calls, i);
    var before := Run(bytes, areas, calls[..i]).1;
    FreeAfterRun(bytes, areas, calls[..i], calls[i]);
    FullIff(before, areas[calls[i]]);
  }

  lemma {:induction false} RunPrefix(bytes: Bytes, areas: seq<Area>, calls: seq<int>, i: nat)
    requires AreasOk(bytes, areas) && CallsOk(areas, calls) && i < |calls|
    ensures Run(bytes, areas, calls).0[i] == Reserve(Run(bytes, areas, calls[..i]).1, areas[calls[i]]).0
    ensures Run(bytes, areas, calls[..i]).0 == Run(bytes, areas, calls).0[..i]
    decreases |calls|
  {
    var shorter := calls[..|calls| - 1];
    if i < |shorter| {
      RunPrefix(bytes, areas, shorter, i);
      assert shorter[..i] == calls[..i];
    }
  }

  /** Each block handed out is the least of its area that was free at the start and not handed out before. */
  lemma AnswerIsLeast(bytes: Bytes, areas: seq<Area>, calls: seq<int>, i: nat)
    requires AreasOk(bytes, areas) && CallsOk(areas, calls) && i < |calls|
    ensures var answers := Run(bytes, areas, calls).0;
      answers[i] != -1 ==> forall k :: areas[calls[i]].lo <= k < answers[i] && k < 8 * |bytes| ==>
        Bit(bytes, k) || k in answers[..i]
  {
    RunPrefix(bytes, areas, calls, i);
    var answers := Run(bytes, areas, calls).0;
    forall k | areas[calls[i]].lo <= k < answers[i] && k < 8 * |bytes|
      ensures answers[i] != -1 ==> Bit(bytes, k) || k in answers[..i]
    {
      if answers[i] != -1 {
        RunMarks(bytes, areas, calls[..i], k);
      }
    }
  }

  // ---- the bit array operations, in place on a buffer ----

  method TestBit(bitarray: array<bv8>, bit_index: int) returns (r: bool)
    requires 0 <= bit_index < 8 * bitarray.Length
    ensures r == Bit(bitarray[..], bit_index)
  {
    r := bitarray[bit_index / 8] & (1 << (bit_index % 8)) != 0;
  }

  method SetBitInPlace(bitarray: array<bv8>, bit_index: int)
    requires 0 <= bit_index < 8 * bitarray.Length
    modifies bitarray
    ensures bitarray[..] == SetBit(old(bitarray[..]), bit_index)
  {
    bitarray[bit_index / 8] := bitarray[bit_index / 8] | (1 << (bit_index % 8));
  }

  method CleanBit(bitarray: array<bv8>, bit_index: int)
    requires 0 <= bit_index < 8 * bitarray.Length
    modifies bitarray
    ensures bitarray[..] == ClearBit(old(bitarray[..]), bit_index)
  {
    bitarray[bit_index / 8] := bitarray[bit_index / 8] & !(1 << (bit_index % 8));
  }
}
