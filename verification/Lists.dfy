// The list operations the scheduler uses, on sequences.
module Lists {
  datatype Option<+T> = None | Some(value: T)

  ghost predicate NoDup<T>(s: seq<T>) {
    forall i, j :: 0 <= i < j < |s| ==> s[i] != s[j]
  }

  /** `list_remove(list, find(list, x))`: the list without the first occurrence of `x`. */
  function Remove<T(==, !new)>(s: seq<T>, x: T): (r: seq<T>)
    ensures |r| == if x in s then |s| - 1 else |s|
    ensures NoDup(s) ==> NoDup(r) && forall y :: y in r <==> y in s && y != x
  {
    if s == [] then []
    else if s[0] == x then
      assert forall y :: y in s[1..] <==> exists i :: 1 <= i < |s| && s[i] == y;
      s[1..]
    else
      assert NoDup(s) ==> NoDup(s[1..]) && s[0] !in s[1..];
      var rest := Remove(s[1..], x);
      assert forall y :: y in s <==> y == s[0] || y in s[1..];
      assert forall y :: y in [s[0]] + rest <==> y == s[0] || y in rest;
      [s[0]] + rest
  }

  /** Cutting out the position where `x` first occurs is removing `x`. */
  lemma {:induction false} RemoveAt<T(!new)>(s: seq<T>, x: T, k: nat)
    requires k < |s| && s[k] == x && x !in s[..k]
    ensures Remove(s, x) == s[..k] + s[k + 1..]
  {
    if k > 0 {
      assert s[0] in s[..k];
      assert s[1..][..k - 1] == s[..k][1..];
      RemoveAt(s[1..], x, k - 1);
      assert s[1..][..k - 1] + s[1..][k..] == s[1..k] + s[k + 1..];
      assert [s[0]] + (s[1..k] + s[k + 1..]) == s[..k] + s[k + 1..];
    }
  }

  lemma AppendMember<T(!new)>(s: seq<T>, x: T)
    ensures forall y :: y in s + [x] <==> y in s || y == x
    ensures NoDup(s) && x !in s ==> NoDup(s + [x])
  {
  }

  lemma RemoveHead<T(!new)>(list: seq<T>)
    requires list != []
    ensures Remove(list, list[0]) == list[1..]
  {
  }

  lemma {:induction false} RemoveConserves<T(!new)>(list: seq<T>, x: T)
    requires x in list
    ensures multiset(Remove(list, x)) + multiset{x} == multiset(list)
  {
    assert list == [list[0]] + list[1..];
    if list[0] != x {
      RemoveConserves(list[1..], x);
    }
  }

  /** `sub` is what is left of `list` after dropping some of its elements. */
  ghost predicate Subsequence<T>(sub: seq<T>, list: seq<T>) {
    if list == [] then sub == []
    else
      var n := |list| - 1;
      || Subsequence(sub, list[..n])
      || (sub != [] && sub[|sub| - 1] == list[n] && Subsequence(sub[..|sub| - 1], list[..n]))
  }

  lemma {:induction false} SubsequenceSelf<T>(list: seq<T>)
    ensures Subsequence(list, list)
  {
    if list != [] {
      SubsequenceSelf(list[..|list| - 1]);
    }
  }

  lemma SubsequenceBoth<T>(sub: seq<T>, list: seq<T>, x: T)
    requires Subsequence(sub, list)
    ensures Subsequence(sub + [x], list + [x])
  {
    assert (sub + [x])[..|sub|] == sub && (list + [x])[..|list|] == list;
  }

  /** What is appended to the list can be dropped again. */
  lemma {:induction false} SubsequenceLonger<T>(sub: seq<T>, list: seq<T>, longer: seq<T>)
    requires Subsequence(sub, list) && list <= longer
    ensures Subsequence(sub, longer)
    decreases |longer|
  {
    if |list| < |longer| {
      var n := |longer| - 1;
      assert longer[..n][..|list|] == longer[..|list|];
      SubsequenceLonger(sub, list, longer[..n]);
    } else {
      assert list == longer;
    }
  }

  lemma {:induction false} SubsequenceMember<T(!new)>(sub: seq<T>, list: seq<T>)
    requires Subsequence(sub, list)
    ensures forall x :: x in sub ==> x in list
  {
    if list != [] {
      var n := |list| - 1;
      if Subsequence(sub, list[..n]) {
        SubsequenceMember(sub, list[..n]);
      } else {
        SubsequenceMember(sub[..|sub| - 1], list[..n]);
        assert sub == sub[..|sub| - 1] + [list[n]];
      }
    }
  }
}
