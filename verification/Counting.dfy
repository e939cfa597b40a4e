/** Sums of a weight over a sequence. The concurrent models count goroutines "in a given
    situation" this way: one weight per situation, and one lemma for a goroutine that moves. */
module Counting {

  function Sum<T>(weight: T -> nat, s: seq<T>): nat {
    if s == [] then 0 else Sum(weight, s[..|s| - 1]) + weight(s[|s| - 1])
  }

  lemma SumAppend<T>(weight: T -> nat, s: seq<T>, x: T)
    ensures Sum(weight, s + [x]) == Sum(weight, s) + weight(x)
  {
    assert (s + [x])[..|s|] == s;
  }

  /** Replacing one element changes the sum by the difference of the two weights. */
  lemma {:induction false} SumUpdate<T>(weight: T -> nat, s: seq<T>, k: nat, x: T)
    requires k < |s|
    ensures Sum(weight, s[k := x]) + weight(s[k]) == Sum(weight, s) + weight(x)
  {
    var last := |s| - 1;
    if k == last {
      assert s[k := x][..last] == s[..last];
    } else {
      SumUpdate(weight, s[..last], k, x);
      assert s[k := x][..last] == s[..last][k := x];
    }
  }

  lemma {:induction false} SumAtLeast<T>(weight: T -> nat, s: seq<T>, k: nat)
    requires k < |s|
    ensures Sum(weight, s) >= weight(s[k])
  {
    if k < |s| - 1 {
      SumAtLeast(weight, s[..|s| - 1], k);
    }
  }

  /** A positive sum has a positive contributor. */
  lemma {:induction false} SumWitness<T>(weight: T -> nat, s: seq<T>) returns (k: nat)
    requires Sum(weight, s) > 0
    ensures k < |s| && weight(s[k]) > 0
  {
    var last := |s| - 1;
    if weight(s[last]) > 0 {
      k := last;
    } else {
      k := SumWitness(weight, s[..last]);
    }
  }

  lemma {:induction false} SumZero<T>(weight: T -> nat, s: seq<T>)
    ensures Sum(weight, s) == 0 <==> forall k :: 0 <= k < |s| ==> weight(s[k]) == 0
  {
    if Sum(weight, s) > 0 {
      var k := SumWitness(weight, s);
    } else {
      forall k | 0 <= k < |s| ensures weight(s[k]) == 0 {
        SumAtLeast(weight, s, k);
      }
    }
  }

  /** Weights that add up to a common weight, element by element, add up as sums. */
  lemma {:induction false} SumSplit<T(!new)>(whole: T -> nat, left: T -> nat, right: T -> nat, s: seq<T>)
    requires forall x :: whole(x) == left(x) + right(x)
    ensures Sum(whole, s) == Sum(left, s) + Sum(right, s)
  {
    if s != [] {
      SumSplit(whole, left, right, s[..|s| - 1]);
    }
  }

  lemma {:induction false} SumAtMost<T>(small: T -> nat, large: T -> nat, s: seq<T>)
    requires forall k :: 0 <= k < |s| ==> small(s[k]) <= large(s[k])
    ensures Sum(small, s) <= Sum(large, s)
  {
    if s != [] {
      SumAtMost(small, large, s[..|s| - 1]);
    }
  }

  /** Where a larger sum comes from. */
  lemma {:induction false} SumGap<T>(small: T -> nat, large: T -> nat, s: seq<T>) returns (k: nat)
    requires Sum(small, s) < Sum(large, s)
    ensures k < |s| && small(s[k]) < large(s[k])
  {
    var last := |s| - 1;
    if small(s[last]) < large(s[last]) {
      k := last;
    } else {
      k := SumGap(small, large, s[..last]);
    }
  }

  lemma {:induction false} SumConstant<T>(weight: T -> nat, s: seq<T>, c: nat)
    requires forall k :: 0 <= k < |s| ==> weight(s[k]) == c
    ensures Sum(weight, s) == |s| * c
  {
    if s != [] {
      SumConstant(weight, s[..|s| - 1], c);
    }
  }

  lemma {:induction false} SumBounded<T>(weight: T -> nat, s: seq<T>, c: nat)
    requires forall k :: 0 <= k < |s| ==> weight(s[k]) <= c
    ensures Sum(weight, s) <= |s| * c
  {
    if s != [] {
      SumBounded(weight, s[..|s| - 1], c);
      assert |s| * c == (|s| - 1) * c + c;
    }
  }

  lemma {:induction false} SumConcat<T>(weight: T -> nat, s: seq<T>, t: seq<T>)
    ensures Sum(weight, s + t) == Sum(weight, s) + Sum(weight, t)
  {
    if t == [] {
      assert s + t == s;
    } else {
      SumConcat(weight, s, t[..|t| - 1]);
      assert (s + t)[..|s + t| - 1] == s + t[..|t| - 1];
    }
  }

  lemma {:induction false} SumHead<T>(weight: T -> nat, s: seq<T>, n: nat)
    requires n <= |s|
    ensures Sum(weight, s) == Sum(weight, s[..n]) + Sum(weight, s[n..])
  {
    assert s[..n] + s[n..] == s;
    SumConcat(weight, s[..n], s[n..]);
  }

  /** Weights of at most one that vanish from position n on add up to at most n. */
  lemma {:induction false} SumFewInHead<T>(weight: T -> nat, s: seq<T>, n: nat)
    requires n <= |s|
    requires forall k :: 0 <= k < n ==> weight(s[k]) <= 1
    requires forall k :: n <= k < |s| ==> weight(s[k]) == 0
    ensures Sum(weight, s) <= n
  {
    if s != [] {
      SumFewInHead(weight, s[..|s| - 1], if n == |s| then n - 1 else n);
    }
  }

  /** Weights of one on the first n positions add up to at least n. */
  lemma SumManyInHead<T>(weight: T -> nat, s: seq<T>, n: nat)
    requires n <= |s|
    requires forall k :: 0 <= k < n ==> weight(s[k]) == 1
    ensures Sum(weight, s) >= n
  {
    SumHead(weight, s, n);
    SumConstant(weight, s[..n], 1);
  }

  /** The order of the elements does not matter. */
  lemma {:induction false} SumPermutation<T>(weight: T -> nat, s: seq<T>, t: seq<T>)
    requires multiset(s) == multiset(t)
    ensures Sum(weight, s) == Sum(weight, t)
  {
    if s == [] {
      assert forall x :: x in t ==> x in multiset(t);
    } else {
      var init, x := s[..|s| - 1], s[|s| - 1];
      assert s == init + [x];
      assert x in multiset(s);
      var rest := SumRemove(weight, t, x);
      assert multiset(init) == multiset(s) - multiset{x};
      SumPermutation(weight, init, rest);
    }
  }

  /** Takes one occurrence of x out of t. */
  lemma SumRemove<T>(weight: T -> nat, t: seq<T>, x: T) returns (rest: seq<T>)
    requires x in multiset(t)
    ensures multiset(rest) == multiset(t) - multiset{x}
    ensures Sum(weight, t) == Sum(weight, rest) + weight(x)
  {
    var k :| 0 <= k < |t| && t[k] == x;
    var head, tail := t[..k], t[k + 1..];
    rest := head + tail;
    assert t == (head + [x]) + tail;
    SumConcat(weight, head, tail);
    SumConcat(weight, head + [x], tail);
    SumAppend(weight, head, x);
  }

  function AsMultiset(values: seq<int>): multiset<int> { multiset(values) }

  /** The union, with multiplicities, of what every element contributes. */
  ghost function Gather<T, V>(part: T -> multiset<V>, s: seq<T>): multiset<V> {
    if s == [] then multiset{} else Gather(part, s[..|s| - 1]) + part(s[|s| - 1])
  }

  lemma GatherAppend<T, V>(part: T -> multiset<V>, s: seq<T>, x: T)
    ensures Gather(part, s + [x]) == Gather(part, s) + part(x)
  {
    assert (s + [x])[..|s|] == s;
  }

  lemma {:induction false} GatherUpdate<T, V(!new)>(part: T -> multiset<V>, s: seq<T>, k: nat, x: T)
    requires k < |s|
    ensures Gather(part, s[k := x]) + part(s[k]) == Gather(part, s) + part(x)
  {
    var last, t := |s| - 1, s[k := x];
    if k == last {
      assert t[..last] == s[..last];
    } else {
      var before, after := Gather(part, s[..last]), Gather(part, t[..last]);
      GatherUpdate(part, s[..last], k, x);
      assert t[..last] == s[..last][k := x];
      AddToBoth(after, part(s[k]), before, part(x), part(s[last]));
    }
  }

  lemma AddToBoth<V(!new)>(a: multiset<V>, b: multiset<V>, c: multiset<V>, d: multiset<V>, extra: multiset<V>)
    requires a + b == c + d
    ensures a + extra + b == c + extra + d
  {
    forall v: V ensures (a + extra + b)[v] == (c + extra + d)[v] {
      assert (a + b)[v] == (c + d)[v];
    }
  }

  lemma {:induction false} GatherNothing<T, V>(part: T -> multiset<V>, s: seq<T>)
    requires forall k :: 0 <= k < |s| ==> part(s[k]) == multiset{}
    ensures Gather(part, s) == multiset{}
  {
    if s != [] {
      GatherNothing(part, s[..|s| - 1]);
    }
  }

  /** An element that moves without changing its contribution changes nothing. */
  lemma GatherKeep<T, V(!new)>(part: T -> multiset<V>, s: seq<T>, k: nat, x: T)
    requires k < |s| && part(x) == part(s[k])
    ensures Gather(part, s[k := x]) == Gather(part, s)
  {
    GatherUpdate(part, s, k, x);
    var after, before := Gather(part, s[k := x]), Gather(part, s);
    forall v: V ensures after[v] == before[v] {
      assert (after + part(x))[v] == (before + part(x))[v];
    }
  }

  lemma GatherGain<T, V(!new)>(part: T -> multiset<V>, s: seq<T>, k: nat, x: T)
    requires k < |s| && part(s[k]) == multiset{}
    ensures Gather(part, s[k := x]) == Gather(part, s) + part(x)
  {
    GatherUpdate(part, s, k, x);
    assert Gather(part, s[k := x]) + part(s[k]) == Gather(part, s[k := x]);
  }

  lemma GatherLose<T, V(!new)>(part: T -> multiset<V>, s: seq<T>, k: nat, x: T)
    requires k < |s| && part(x) == multiset{}
    ensures Gather(part, s) == Gather(part, s[k := x]) + part(s[k])
  {
    GatherUpdate(part, s, k, x);
    assert Gather(part, s) + part(x) == Gather(part, s);
  }

  lemma GatherMore<T, V(!new)>(part: T -> multiset<V>, s: seq<T>, k: nat, x: T, extra: multiset<V>)
    requires k < |s| && part(x) == part(s[k]) + extra
    ensures Gather(part, s[k := x]) == Gather(part, s) + extra
  {
    GatherUpdate(part, s, k, x);
    var after, before := Gather(part, s[k := x]), Gather(part, s);
    forall v: V ensures after[v] == (before + extra)[v] {
      assert (after + part(s[k]))[v] == (before + part(x))[v];
    }
  }
}
