// The lists of `wakeup_threads`: which threads one call wakes, which it leaves, and how many calls empty a list.
module SuseHalves {
  import opened SuseState

  /** The threads at even positions: those one call of `wakeup_threads` moves to READY. */
  function Evens(list: seq<Id>): (r: seq<Id>)
    ensures |r| == (|list| + 1) / 2 && forall i :: 0 <= i < |r| ==> r[i] == list[2 * i]
  {
    seq((|list| + 1) / 2, i requires 0 <= i < (|list| + 1) / 2 => list[2 * i])
  }

  /** The threads at odd positions: those it leaves for the next call, in order. */
  function Odds(list: seq<Id>): (r: seq<Id>)
    ensures |r| == |list| / 2 && forall i :: 0 <= i < |r| ==> r[i] == list[2 * i + 1]
  {
    seq(|list| / 2, i requires 0 <= i < |list| / 2 => list[2 * i + 1])
  }

  /** What `calls` calls of `wakeup_threads` without new arrivals leave of the list. */
  function Drained(list: seq<Id>, calls: nat): seq<Id> {
    if calls == 0 then list else Odds(Drained(list, calls - 1))
  }

  function Pow2(n: nat): (r: nat)
    ensures r > 0
  {
    if n == 0 then 1 else 2 * Pow2(n - 1)
  }

  lemma {:induction false} PowSum(a: nat, b: nat)
    ensures Pow2(a + b) == Pow2(a) * Pow2(b)
  {
    if a > 0 {
      PowSum(a - 1, b);
    }
  }

  /** The bound of the scan is the largest number a `float` can hold. */
  lemma LargestFloat()
    ensures FLT_MAX == ((Pow2(24) - 1) * Pow2(104)) as real
  {
    Pow13();
    hide Pow2;
    PowSum(13, 11);
    PowSum(13, 13);
    PowSum(26, 26);
    PowSum(52, 52);
  }

  lemma Pow13()
    ensures Pow2(11) == 2048 && Pow2(13) == 8192
  {
    assert Pow2(5) == 32;
    assert Pow2(8) == 256;
  }

  /** Each call halves the list, so it is empty after k calls exactly when it had fewer than 2^k threads. */
  lemma {:induction false} DrainsIff(list: seq<Id>, calls: nat)
    ensures |Drained(list, calls)| * Pow2(calls) <= |list| < (|Drained(list, calls)| + 1) * Pow2(calls)
    ensures Drained(list, calls) == [] <==> |list| < Pow2(calls)
  {
    if calls > 0 {
      DrainsIff(list, calls - 1);
      var before, after, k := |Drained(list, calls - 1)|, |Drained(list, calls)|, Pow2(calls - 1);
      Halving(before, after, k, |list|);
    }
  }

  lemma Halving(before: nat, after: nat, k: nat, n: nat)
    requires after == before / 2 && before * k <= n < (before + 1) * k
    ensures after * (2 * k) <= n < (after + 1) * (2 * k)
    ensures after == 0 <==> n < 2 * k
  {
    assert 2 * after <= before < 2 * after + 2;
    assert (2 * after) * k <= before * k;
    assert (before + 1) * k <= (2 * after + 2) * k;
    if after > 0 {
      assert 2 * k <= (2 * after) * k;
    }
  }

  lemma HalvesFront(list: seq<Id>)
    requires |list| >= 2
    ensures Evens(list) == [list[0]] + Evens(list[2..]) && Odds(list) == [list[1]] + Odds(list[2..])
  {
  }

  lemma InFrontOfBoth(a: Id, b: Id, x: seq<Id>, y: seq<Id>, list: seq<Id>)
    requires multiset(x) + multiset(y) == multiset(list)
    ensures multiset([a] + x) + multiset([b] + y) == multiset([a] + ([b] + list))
  {
  }

  /** No thread is dropped or doubled: the two halves interleave to the list. */
  lemma {:induction false} HalvesPartition(list: seq<Id>)
    ensures |Evens(list)| + |Odds(list)| == |list|
    ensures multiset(Evens(list)) + multiset(Odds(list)) == multiset(list)
    decreases |list|
  {
    if |list| >= 2 {
      HalvesPartition(list[2..]);
      HalvesFront(list);
      InFrontOfBoth(list[0], list[1], Evens(list[2..]), Odds(list[2..]), list[2..]);
      assert list == [list[0]] + ([list[1]] + list[2..]);
    } else {
      assert Evens(list) == list && Odds(list) == [];
    }
  }

  lemma TakeExtend(r: seq<Id>, list: seq<Id>, i: nat)
    requires i < |list|
    ensures (r + list[..i]) + [list[i]] == r + list[..i + 1]
  {
  }

  /** After `i` rounds on the list `w`: the first i odd positions are kept, the tail is untouched. */
  ghost predicate WakeProgress(w: seq<Id>, i: nat, now: seq<Id>) {
    && |now| + i == |w|
    && (forall j :: 0 <= j < i && j < |now| ==> 2 * j + 1 < |w| && now[j] == w[2 * j + 1])
    && (forall j :: i <= j < |now| ==> now[j] == w[j + i])
  }

  lemma WakeProgressStep(w: seq<Id>, i: nat, now: seq<Id>, r: seq<Id>)
    requires WakeProgress(w, i, now) && i < |now|
    ensures WakeProgress(w, i + 1, now[..i] + now[i + 1..])
    ensures 2 * i < |w| && (r + Evens(w)[..i]) + [now[i]] == r + Evens(w)[..i + 1]
  {
  }

  lemma WakeProgressDone(w: seq<Id>, i: nat, now: seq<Id>)
    requires WakeProgress(w, i, now) && i >= |now| && 2 * i <= |w| + 1
    ensures i == (|w| + 1) / 2 && now == Odds(w) && Evens(w)[..i] == Evens(w)
  {
  }
}
