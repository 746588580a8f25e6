// Page replacement of MUSE (memoria/muse/segments.c): the modified clock over the frame table.
module MuseClock {
  /** `frame_t`. */
  datatype Frame = Frame(isFree: bool, modif: int, used: int)

  /** How late the four sweeps reach a frame; 4 is never. */
  function Rank(f: Frame): nat {
    if f.used == 0 && f.modif == 0 then 0
    else if f.used == 0 && f.modif == 1 then 1
    else if f.used != 0 && f.modif == 0 then 2
    else if f.used != 0 && f.modif == 1 then 3
    else 4
  }

  /** Steps from the pointer forward to frame `i`. */
  function Dist(n: nat, ptr: nat, i: nat): nat
    requires ptr < n && i < n
  {
    if i >= ptr then i - ptr else i + n - ptr
  }

  /** The frame `k` steps after the pointer. */
  function Ahead(n: nat, ptr: nat, k: nat): nat
    requires ptr < n && k <= n
  {
    if ptr + k < n then ptr + k else ptr + k - n
  }

  lemma AheadDist(n: nat, ptr: nat)
    requires ptr < n
    ensures forall k: nat :: k < n ==> Ahead(n, ptr, k) < n && Dist(n, ptr, Ahead(n, ptr, k)) == k
    ensures forall i: nat :: i < n ==> Dist(n, ptr, i) < n && Ahead(n, ptr, Dist(n, ptr, i)) == i
    ensures Ahead(n, ptr, n) == ptr
  {
  }

  function Next(n: nat, i: nat): nat
    requires i < n
  {
    if i + 1 < n then i + 1 else 0
  }

  /** `v` is minimal in (rank, distance from the pointer). */
  ghost predicate IsVictim(frames: seq<Frame>, ptr: nat, v: nat) {
    && ptr < |frames| && v < |frames| && Rank(frames[v]) < 4
    && forall i :: 0 <= i < |frames| ==>
       Rank(frames[v]) < Rank(frames[i])
       || (Rank(frames[v]) == Rank(frames[i]) && Dist(|frames|, ptr, v) <= Dist(|frames|, ptr, i))
  }

  /** No sweep stops: every `modif` is neither 0 nor 1. */
  ghost predicate NoVictim(frames: seq<Frame>) {
    forall i :: 0 <= i < |frames| ==> Rank(frames[i]) == 4
  }

  /** The used bits a search for `v` clears: none in rank 0, those passed before `v` in rank 1, all of them later. */
  ghost predicate Cleared(frames: seq<Frame>, ptr: nat, v: int, i: nat)
    requires ptr < |frames| && -1 <= v < |frames| && i < |frames|
  {
    v == -1 || Rank(frames[v]) >= 2 || (Rank(frames[v]) == 1 && Dist(|frames|, ptr, i) < Dist(|frames|, ptr, v))
  }

  ghost function Swept(frames: seq<Frame>, ptr: nat, v: int): seq<Frame>
    requires ptr < |frames| && -1 <= v < |frames|
  {
    seq(|frames|, i requires 0 <= i < |frames| =>
      if Cleared(frames, ptr, v, i) then frames[i].(used := 0) else frames[i])
  }

  /** The rank order leaves no choice: there is one victim. */
  lemma VictimUnique(frames: seq<Frame>, ptr: nat, v: nat, w: nat)
    requires IsVictim(frames, ptr, v) && IsVictim(frames, ptr, w)
    ensures v == w
  {
    AheadDist(|frames|, ptr);
    assert Ahead(|frames|, ptr, Dist(|frames|, ptr, v)) == v;
  }

  /** A table whose bits are 0 or 1, as the program keeps them. */
  predicate Bits(frames: seq<Frame>) {
    forall i :: 0 <= i < |frames| ==> frames[i].used in {0, 1} && frames[i].modif in {0, 1}
  }

  /** `a` before `b` in (used, modif, distance from the pointer). */
  predicate Sooner(frames: seq<Frame>, ptr: nat, a: nat, b: nat)
    requires ptr < |frames| && a < |frames| && b < |frames|
  {
    || frames[a].used < frames[b].used
    || (frames[a].used == frames[b].used && frames[a].modif < frames[b].modif)
    || (frames[a].used == frames[b].used && frames[a].modif == frames[b].modif
       && Dist(|frames|, ptr, a) <= Dist(|frames|, ptr, b))
  }

  lemma SoonerIsRank(frames: seq<Frame>, ptr: nat, v: nat, i: nat)
    requires Bits(frames) && ptr < |frames| && v < |frames| && i < |frames|
    ensures Rank(frames[v]) < 4
    ensures Sooner(frames, ptr, v, i) <==>
      Rank(frames[v]) < Rank(frames[i])
      || (Rank(frames[v]) == Rank(frames[i]) && Dist(|frames|, ptr, v) <= Dist(|frames|, ptr, i))
  {
  }

  /** On 0/1 bits the victim is the lexicographic minimum, and some frame always qualifies. */
  lemma VictimIsLeast(frames: seq<Frame>, ptr: nat, v: nat)
    requires Bits(frames) && ptr < |frames| && v < |frames|
    ensures !NoVictim(frames)
    ensures IsVictim(frames, ptr, v) <==> forall i: nat :: i < |frames| ==> Sooner(frames, ptr, v, i)
  {
    forall i: nat | i < |frames|
      ensures Sooner(frames, ptr, v, i) <==>
        Rank(frames[v]) < Rank(frames[i])
        || (Rank(frames[v]) == Rank(frames[i]) && Dist(|frames|, ptr, v) <= Dist(|frames|, ptr, i))
    {
      SoonerIsRank(frames, ptr, v, i);
    }
    SoonerIsRank(frames, ptr, v, v);
  }

  class FrameTable {
    const frames: array<Frame>
    var clockPointer: nat

    ghost predicate Valid()
      reads this
    {
      clockPointer < frames.Length
    }

    /** `createBitmapFrames`. */
    constructor (count: nat)
      requires count > 0
      ensures Valid() && fresh(frames) && frames.Length == count && clockPointer == 0
      ensures forall i :: 0 <= i < count ==> frames[i] == Frame(true, 0, 0)
    {
      frames := new Frame[count](_ => Frame(true, 0, 0));
      clockPointer := 0;
    }

    method IncreaseClockPointer()
      requires Valid()
      modifies this`clockPointer
      ensures Valid() && clockPointer == Next(frames.Length, old(clockPointer))
    {
      if clockPointer < frames.Length - 1 {
        clockPointer := clockPointer + 1;
      } else {
        clockPointer := 0;
      }
    }

    /** First and third sweep: look for used 0, modif 0. */
    method SweepClean() returns (result: int)
      requires Valid()
      modifies this`clockPointer
      ensures Valid() && -1 <= result < frames.Length
      ensures result == -1 <==> forall i :: 0 <= i < frames.Length ==> !(frames[i].used == 0 && frames[i].modif == 0)
      ensures result == -1 ==> clockPointer == old(clockPointer)
      ensures result != -1 ==>
        && frames[result].used == 0 && frames[result].modif == 0 && clockPointer == Next(frames.Length, result)
        && forall i :: 0 <= i < frames.Length && frames[i].used == 0 && frames[i].modif == 0 ==>
             Dist(frames.Length, old(clockPointer), result) <= Dist(frames.Length, old(clockPointer), i)
    {
      ghost var start, n := clockPointer, frames.Length;
      AheadDist(n, start);
      var framesSearched := 0;
      while framesSearched < frames.Length
        invariant 0 <= framesSearched <= n && clockPointer == Ahead(n, start, framesSearched) && Valid()
        invariant forall i :: 0 <= i < n && Dist(n, start, i) < framesSearched ==>
          !(frames[i].used == 0 && frames[i].modif == 0)
      {
        var frame := frames[clockPointer];
        if frame.used == 0 && frame.modif == 0 {
          result := clockPointer;
          IncreaseClockPointer();
          return;
        }
        framesSearched := framesSearched + 1;
        IncreaseClockPointer();
      }
      result := -1;
    }

    /** Second sweep: look for used 0, modif 1, clearing the used bits on the way. */
    method SweepClearing() returns (result: int)
      requires Valid()
      modifies this`clockPointer, frames
      ensures Valid() && -1 <= result < frames.Length
      ensures result == -1 <==> forall i :: 0 <= i < frames.Length ==> old(Rank(frames[i])) != 1
      ensures result == -1 ==> clockPointer == old(clockPointer)
      ensures result != -1 ==>
        && old(Rank(frames[result])) == 1 && clockPointer == Next(frames.Length, result)
        && forall i :: 0 <= i < frames.Length && old(Rank(frames[i])) == 1 ==>
             Dist(frames.Length, old(clockPointer), result) <= Dist(frames.Length, old(clockPointer), i)
      ensures forall i :: 0 <= i < frames.Length ==>
        frames[i] ==
          if result == -1 || Dist(frames.Length, old(clockPointer), i) < Dist(frames.Length, old(clockPointer), result)
          then old(frames[i]).(used := 0)
          else old(frames[i])
    {
      ghost var start, n := clockPointer, frames.Length;
      AheadDist(n, start);
      var framesSearched := 0;
      while framesSearched < frames.Length
        invariant 0 <= framesSearched <= n && clockPointer == Ahead(n, start, framesSearched) && Valid()
        invariant forall i :: 0 <= i < n && Dist(n, start, i) < framesSearched ==>
          old(Rank(frames[i])) != 1 && frames[i] == old(frames[i]).(used := 0)
        invariant forall i :: 0 <= i < n && Dist(n, start, i) >= framesSearched ==> frames[i] == old(frames[i])
      {
        var frame := frames[clockPointer];
        if frame.used == 0 && frame.modif == 1 {
          result := clockPointer;
          IncreaseClockPointer();
          return;
        }
        frames[clockPointer] := frame.(used := 0);
        framesSearched := framesSearched + 1;
        IncreaseClockPointer();
      }
      result := -1;
    }

    /** Fourth sweep: look for used 0, modif 1 without clearing. */
    method SweepModified() returns (result: int)
      requires Valid()
      modifies this`clockPointer
      ensures Valid() && -1 <= result < frames.Length
      ensures result == -1 <==> forall i :: 0 <= i < frames.Length ==> Rank(frames[i]) != 1
      ensures result == -1 ==> clockPointer == old(clockPointer)
      ensures result != -1 ==>
        && Rank(frames[result]) == 1 && clockPointer == Next(frames.Length, result)
        && forall i :: 0 <= i < frames.Length && Rank(frames[i]) == 1 ==>
             Dist(frames.Length, old(clockPointer), result) <= Dist(frames.Length, old(clockPointer), i)
    {
      ghost var start, n := clockPointer, frames.Length;
      AheadDist(n, start);
      var framesSearched := 0;
      while framesSearched < frames.Length
        invariant 0 <= framesSearched <= n && clockPointer == Ahead(n, start, framesSearched) && Valid()
        invariant forall i :: 0 <= i < n && Dist(n, start, i) < framesSearched ==> Rank(frames[i]) != 1
      {
        var frame := frames[clockPointer];
        if frame.used == 0 && frame.modif == 1 {
          result := clockPointer;
          IncreaseClockPointer();
          return;
        }
        framesSearched := framesSearched + 1;
        IncreaseClockPointer();
      }
      result := -1;
    }

    /** `clockModif`: the four sweeps find the least frame in (used, modif, distance), whatever the bits hold. */
    method ClockModif() returns (result: int)
      requires Valid()
      modifies this`clockPointer, frames
      ensures Valid() && -1 <= result < frames.Length
      ensures result == -1 <==> NoVictim(old(frames[..]))
      ensures result != -1 ==> IsVictim(old(frames[..]), old(clockPointer), result)
      ensures frames[..] == Swept(old(frames[..]), old(clockPointer), result)
      ensures clockPointer == if result == -1 then old(clockPointer) else Next(frames.Length, result)
    {
      ghost var before := frames[..];
      result := SweepClean();
      if result != -1 {
        assert Rank(before[result]) == 0;
        assert frames[..] == Swept(before, old(clockPointer), result);
        return;
      }
      result := SweepClearing();
      if result != -1 {
        assert Rank(before[result]) == 1;
        assert frames[..] == Swept(before, old(clockPointer), result);
        return;
      }
      assert forall i :: 0 <= i < frames.Length ==> frames[i] == before[i].(used := 0) && Rank(before[i]) >= 2;
      assert frames[..] == seq(|before|, i requires 0 <= i < |before| => before[i].(used := 0));
      result := SweepClean();
      if result != -1 {
        assert Rank(before[result]) == 2;
        return;
      }
      result := SweepModified();
      if result != -1 {
        assert Rank(before[result]) == 3;
      }
    }

    /** `searchFreeFrame`. */
    method SearchFreeFrame() returns (i: int)
      ensures -1 <= i < frames.Length
      ensures i == -1 <==> forall j :: 0 <= j < frames.Length ==> !frames[j].isFree
      ensures i != -1 ==> frames[i].isFree && forall j :: 0 <= j < i ==> !frames[j].isFree
    {
      var k := 0;
      while k < frames.Length
        invariant 0 <= k <= frames.Length
        invariant forall j :: 0 <= j < k ==> !frames[j].isFree
      {
        if frames[k].isFree {
          return k;
        }
        k := k + 1;
      }
      return -1;
    }

    /** `setAFrame`: takes a free frame, and then still answers -1, or evicts the victim and answers it. */
    method SetAFrame() returns (result: int)
      requires Valid()
      requires exists i :: 0 <= i < frames.Length && (frames[i].isFree || Rank(frames[i]) < 4)
      modifies this`clockPointer, frames
      ensures Valid() && -1 <= result < frames.Length
      ensures result == -1 <==> exists i :: 0 <= i < frames.Length && old(frames[i]).isFree
      ensures result >= 0 ==> Evicts(old(frames[..]), old(clockPointer), result, frames[..], clockPointer)
      ensures result == -1 ==> clockPointer == old(clockPointer) && exists f ::
        && 0 <= f < frames.Length && old(frames[..])[f].isFree
           && (forall j :: 0 <= j < f ==> !old(frames[..])[j].isFree)
        && frames[..] == old(frames[..])[f := Frame(false, 1, 1)]
    {
      var free := SearchFreeFrame();
      var frame := free;
      if free == -1 {
        frame := ClockModif();
      }
      ghost var swept := frames[..];
      frames[frame] := frames[frame].(modif := 1, used := 1, isFree := false);
      assert frames[..] == swept[frame := Frame(false, 1, 1)];
      return if free == -1 then frame else -1;
    }

    /** `count` requests for a frame, with no other reference to memory in between, from a full table with every bit
        set. */
    method SetFrames(count: nat) returns (victims: seq<nat>)
      requires Valid() && forall i :: 0 <= i < frames.Length ==> frames[i] == Frame(false, 1, 1)
      modifies this`clockPointer, frames
      ensures Valid() && |victims| == count
      ensures forall k :: 0 <= k < count ==> victims[k] == (old(clockPointer) + k) % frames.Length
      ensures clockPointer == (old(clockPointer) + count) % frames.Length
      ensures count % frames.Length == 0 ==> frames[..] == old(frames[..])
    {
      victims := [];
      ghost var n, p := frames.Length, clockPointer;
      ghost var tables, ptrs := [frames[..]], [p];
      AllSetIsLoaded(n, p);
      assert frames[..] == Loaded(n, p, 0);
      while |victims| < count
        invariant |victims| <= count && Valid()
        invariant EvictionRun(tables, ptrs, victims) && tables[0] == Loaded(n, p, 0) && ptrs[0] == p
        invariant tables[|victims|] == frames[..] && ptrs[|victims|] == clockPointer
      {
        EvictionState(tables, ptrs, victims, n, p, |victims|);
        LoadedIsFull(n, p, Mod(|victims|, n));
        assert forall i :: 0 <= i < n ==> !frames[i].isFree && Rank(frames[i]) < 4 by {
          assert forall i :: 0 <= i < n ==> frames[i] == frames[..][i];
        }
        assert Rank(frames[0]) < 4;
        ghost var before, ptr := frames[..], clockPointer;
        var frame := SetAFrame();
        assert forall i :: 0 <= i < n ==> !before[i].isFree;
        RunGrows(tables, ptrs, victims, frame, frames[..], clockPointer);
        tables, ptrs := tables + [frames[..]], ptrs + [clockPointer];
        victims := victims + [frame];
      }
      EvictionIsFifo(tables, ptrs, victims, n, p);
      EvictionState(tables, ptrs, victims, n, p, count);
      AheadIsRemainder(n, p, count);
    }
  }

  /** One eviction: `v` is the victim, the sweep's bits are cleared, `v` is loaded afresh and the pointer stands after
      it. */
  ghost predicate Evicts(frames: seq<Frame>, ptr: nat, v: nat, frames': seq<Frame>, ptr': nat) {
    && ptr < |frames| && IsVictim(frames, ptr, v)
    && frames' == Swept(frames, ptr, v)[v := Frame(false, 1, 1)]
    && ptr' == Next(|frames|, v)
  }

  /** A run of evictions with no other reference to memory in between. */
  ghost predicate EvictionRun(tables: seq<seq<Frame>>, ptrs: seq<nat>, victims: seq<nat>) {
    && |tables| == |victims| + 1 && |ptrs| == |victims| + 1
    && forall k :: 0 <= k < |victims| ==> Evicts(tables[k], ptrs[k], victims[k], tables[k + 1], ptrs[k + 1])
  }

  /** A full table of n modified frames, of which the r after `p` (all, when r is 0) have been loaded since the last
      sweep. */
  ghost function Loaded(n: nat, p: nat, r: nat): (t: seq<Frame>)
    requires p < n
    ensures |t| == n
  {
    seq(n, i requires 0 <= i < n => Frame(false, 1, if r == 0 || Dist(n, p, i) < r then 1 else 0))
  }

  lemma EvictionStep(n: nat, p: nat, r: nat, v: nat, table: seq<Frame>, ptr: nat)
    requires p < n && r < n && Evicts(Loaded(n, p, r), Ahead(n, p, r), v, table, ptr)
    ensures v == Ahead(n, p, r)
    ensures var s := if r + 1 == n then 0 else r + 1; table == Loaded(n, p, s) && ptr == Ahead(n, p, s)
  {
    AheadDist(n, p);
    var before := Loaded(n, p, r);
    var w := Ahead(n, p, r);
    AheadDist(n, w);
    assert IsVictim(before, w, w) by {
      forall i | 0 <= i < n ensures Rank(before[w]) <= Rank(before[i]) {
      }
    }
    VictimUnique(before, w, v, w);
    var s := if r + 1 == n then 0 else r + 1;
    forall i | 0 <= i < n ensures table[i] == Loaded(n, p, s)[i] {
      assert Ahead(n, p, Dist(n, p, i)) == i;
    }
    assert table == Loaded(n, p, s);
  }

  lemma AllSetIsLoaded(n: nat, p: nat)
    requires p < n
    ensures Loaded(n, p, 0) == seq(n, i => Frame(false, 1, 1))
  {
  }

  lemma LoadedIsFull(n: nat, p: nat, r: nat)
    requires p < n
    ensures forall i :: 0 <= i < n ==> !Loaded(n, p, r)[i].isFree && Rank(Loaded(n, p, r)[i]) < 4
  {
  }

  lemma RunGrows(tables: seq<seq<Frame>>, ptrs: seq<nat>, victims: seq<nat>, v: nat, table: seq<Frame>, ptr: nat)
    requires EvictionRun(tables, ptrs, victims)
    requires Evicts(tables[|victims|], ptrs[|victims|], v, table, ptr)
    ensures EvictionRun(tables + [table], ptrs + [ptr], victims + [v])
  {
    hide Evicts;
  }

  lemma Times(n: nat, a: int, b: int)
    requires a <= b
    ensures n * a <= n * b
  {
  }

  lemma Quotient(x: nat, n: nat, q: nat, r: nat)
    requires x == n * q + r && r < n
    ensures x % n == r
  {
    var d := x / n;
    if d < q {
      Times(n, d + 1, q);
    } else if d > q {
      Times(n, q + 1, d);
    }
  }

  lemma NextRemainder(k: nat, n: nat)
    requires n > 0
    ensures (k + 1) % n == if k % n + 1 == n then 0 else k % n + 1
  {
    var q, r := k / n, k % n;
    if r + 1 == n {
      assert n * (q + 1) == n * q + n;
      Quotient(k + 1, n, q + 1, 0);
    } else {
      Quotient(k + 1, n, q, r + 1);
    }
  }

  lemma AheadIsRemainder(n: nat, p: nat, k: nat)
    requires p < n
    ensures Ahead(n, p, k % n) == (p + k) % n
  {
    var q, r := k / n, k % n;
    if p + r >= n {
      assert n * (q + 1) == n * q + n;
      Quotient(p + k, n, q + 1, p + r - n);
    } else {
      Quotient(p + k, n, q, p + r);
    }
  }

  ghost function Mod(k: nat, n: nat): (r: nat)
    requires n > 0
    ensures r < n
  {
    k % n
  }

  lemma NextMod(k: nat, n: nat)
    requires n > 0
    ensures Mod(0, n) == 0 && Mod(k + 1, n) == if Mod(k, n) + 1 == n then 0 else Mod(k, n) + 1
  {
    NextRemainder(k, n);
  }

  lemma {:induction false} EvictionState(tables: seq<seq<Frame>>, ptrs: seq<nat>, victims: seq<nat>, n: nat, p: nat,
    k: nat)
    requires EvictionRun(tables, ptrs, victims) && p < n && k <= |victims|
    requires tables[0] == Loaded(n, p, 0) && ptrs[0] == p
    ensures tables[k] == Loaded(n, p, Mod(k, n)) && ptrs[k] == Ahead(n, p, Mod(k, n))
  {
    hide Loaded, Evicts, Mod;
    if k == 0 {
      NextMod(0, n);
    } else {
      EvictionState(tables, ptrs, victims, n, p, k - 1);
      NextMod(k - 1, n);
      EvictionNext(tables, ptrs, victims, n, p, k - 1, Mod(k - 1, n));
    }
  }

  lemma EvictionNext(tables: seq<seq<Frame>>, ptrs: seq<nat>, victims: seq<nat>, n: nat, p: nat, k: nat, r: nat)
    requires EvictionRun(tables, ptrs, victims) && p < n && k < |victims| && r < n
    requires tables[k] == Loaded(n, p, r) && ptrs[k] == Ahead(n, p, r)
    ensures var s := if r + 1 == n then 0 else r + 1; tables[k + 1] == Loaded(n, p, s) && ptrs[k + 1] == Ahead(n, p, s)
    ensures victims[k] == Ahead(n, p, r)
  {
    hide Loaded, Ahead, Evicts;
    EvictionStep(n, p, r, victims[k], tables[k + 1], ptrs[k + 1]);
  }

  /** Fairness: from a full table with every bit set, the k-th eviction takes frame pointer + k (mod n), for ever;
      after every n evictions each frame has gone once and the table is as it was. */
  lemma EvictionIsFifo(tables: seq<seq<Frame>>, ptrs: seq<nat>, victims: seq<nat>, n: nat, p: nat)
    requires EvictionRun(tables, ptrs, victims) && p < n
    requires tables[0] == Loaded(n, p, 0) && ptrs[0] == p
    ensures forall k :: 0 <= k < |victims| ==> victims[k] == (p + k) % n
    ensures forall k :: 0 <= k <= |victims| && k % n == 0 ==> tables[k] == tables[0] && ptrs[k] == p
    ensures forall j, k :: 0 <= j < k < |victims| && k < j + n ==> victims[j] != victims[k]
  {
    forall k | 0 <= k < |victims| ensures victims[k] == (p + k) % n {
      EvictionState(tables, ptrs, victims, n, p, k);
      EvictionStep(n, p, k % n, victims[k], tables[k + 1], ptrs[k + 1]);
      AheadIsRemainder(n, p, k);
    }
    forall k | 0 <= k <= |victims| && k % n == 0 ensures tables[k] == tables[0] && ptrs[k] == p {
      EvictionState(tables, ptrs, victims, n, p, k);
    }
    forall j, k | 0 <= j < k < |victims| && k < j + n ensures victims[j] != victims[k] {
      if (p + j) % n == (p + k) % n {
        SameRemainder(p + j, p + k, n);
      }
    }
  }

  lemma SameRemainder(a: nat, b: nat, n: nat)
    requires n > 0 && a < b && a % n == b % n
    ensures b - a >= n
  {
    var d := b / n - a / n;
    assert b - a == n * d;
    if d <= 0 {
      Times(n, d, 0);
    } else {
      Times(n, 1, d);
    }
  }
}
