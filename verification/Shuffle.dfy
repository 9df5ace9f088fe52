/** The Fisher-Yates shuffle of utils.py. The random draws are inputs. */
module Shuffle {

  function Swap<T>(s: seq<T>, i: nat, j: nat): (r: seq<T>)
    requires i < |s| && j < |s|
    ensures |r| == |s|
  {
    s[i := s[j]][j := s[i]]
  }

  /** The draws for the countdown from index `i` to 1: a number in `0..i`, then in `0..i-1`, and so on. */
  predicate DrawsFrom(i: nat, d: seq<nat>) {
    |d| == i && forall t :: 0 <= t < i ==> d[t] <= i - t
  }

  function Top(n: nat): nat {
    if n == 0 then 0 else n - 1
  }

  /** What `secrets.randbelow` can return over one shuffle of `n` items. */
  predicate ValidDraws(n: nat, d: seq<nat>) {
    DrawsFrom(Top(n), d)
  }

  function ShuffleFrom<T>(s: seq<T>, i: nat, d: seq<nat>): (r: seq<T>)
    requires DrawsFrom(i, d) && (i > 0 ==> i < |s|)
    ensures |r| == |s|
    decreases i
  {
    if i == 0 then s else ShuffleFrom(Swap(s, i, d[0]), i - 1, d[1..])
  }

  function Shuffled<T>(s: seq<T>, d: seq<nat>): (r: seq<T>)
    requires ValidDraws(|s|, d)
    ensures |r| == |s|
  {
    ShuffleFrom(s, Top(|s|), d)
  }

  /** `secure_shuffle`: a copy is shuffled in place, counting down; the argument is left alone. */
  method SecureShuffle<T>(lst: array<T>, draws: seq<nat>) returns (out: array<T>)
    requires ValidDraws(lst.Length, draws)
    ensures fresh(out)
    ensures out[..] == Shuffled(lst[..], draws)
  {
    out := new T[lst.Length](k requires 0 <= k < lst.Length reads lst => lst[k]);
    assert out[..] == lst[..];
    var i := Top(out.Length);
    ghost var n := i;
    while i > 0
      invariant 0 <= i <= n == Top(out.Length) && out.Length == lst.Length
      invariant DrawsFrom(i, draws[n - i..])
      invariant ShuffleFrom(out[..], i, draws[n - i..]) == Shuffled(lst[..], draws)
    {
      var j := draws[Top(out.Length) - i];
      ghost var before := out[..];
      out[i], out[j] := out[j], out[i];
      assert out[..] == Swap(before, i, j);
      assert draws[n - i..][1..] == draws[n - (i - 1)..];
      i := i - 1;
    }
  }

  /** The draws of one shuffle from a supply of random numbers: step `t` reduces the `t`-th of them. */
  function DrawsOf(picks: seq<nat>, n: nat): (d: seq<nat>)
    ensures ValidDraws(n, d)
  {
    var top := Top(n);
    seq(top, t requires 0 <= t < top => if t < |picks| then picks[t] % (top - t + 1) else 0)
  }

  /** Every sequence that `randbelow` can return comes from some supply, so nothing keeps an order from coming out. */
  lemma EveryDraw(n: nat, d: seq<nat>)
    requires ValidDraws(n, d)
    ensures DrawsOf(d, n) == d
  {
    forall t | 0 <= t < |d| ensures DrawsOf(d, n)[t] == d[t] {
      Below(d[t], Top(n) - t + 1);
    }
  }

  lemma Below(x: nat, n: nat)
    requires x < n
    ensures x % n == x
  {
  }

  // --- which orders come out ---------------------------------------------------

  lemma SwapMultiset<T>(s: seq<T>, i: nat, j: nat)
    requires i < |s| && j < |s|
    ensures multiset(Swap(s, i, j)) == multiset(s)
  {
  }

  lemma {:induction false} KeepsTail<T>(s: seq<T>, i: nat, d: seq<nat>)
    requires DrawsFrom(i, d) && (i > 0 ==> i < |s|)
    ensures forall k :: i < k < |s| ==> ShuffleFrom(s, i, d)[k] == s[k]
    decreases i
  {
    if i > 0 {
      KeepsTail(Swap(s, i, d[0]), i - 1, d[1..]);
    }
  }

  /** The output holds the same items, as often. */
  lemma {:induction false} ShuffleKeepsItems<T>(s: seq<T>, i: nat, d: seq<nat>)
    requires DrawsFrom(i, d) && (i > 0 ==> i < |s|)
    ensures multiset(ShuffleFrom(s, i, d)) == multiset(s)
    decreases i
  {
    if i > 0 {
      SwapMultiset(s, i, d[0]);
      ShuffleKeepsItems(Swap(s, i, d[0]), i - 1, d[1..]);
    }
  }

  ghost predicate Distinct<T(!new)>(s: seq<T>) {
    forall a, b :: 0 <= a < b < |s| ==> s[a] != s[b]
  }

  /** Draws that shuffle `s` into `p`: each step looks up where the item wanted at `i` is now. */
  ghost function Recover<T(!new)>(s: seq<T>, i: nat, p: seq<T>): seq<nat>
    requires |p| == |s| && (i > 0 ==> i < |s|)
    decreases i
  {
    if i == 0 then []
    else if exists j: nat :: j <= i && s[j] == p[i] then
      var j: nat :| j <= i && s[j] == p[i];
      [j] + Recover(Swap(s, i, j), i - 1, p)
    else []
  }

  /** Different draws give different orders of distinct items. */
  lemma {:induction false} ShuffleOneToOne<T(!new)>(s: seq<T>, i: nat, d: seq<nat>)
    requires Distinct(s) && DrawsFrom(i, d) && (i > 0 ==> i < |s|)
    ensures Recover(s, i, ShuffleFrom(s, i, d)) == d
    decreases i
  {
    if i > 0 {
      var p, t := ShuffleFrom(s, i, d), Swap(s, i, d[0]);
      assert p == ShuffleFrom(t, i - 1, d[1..]);
      KeepsTail(t, i - 1, d[1..]);
      assert p[i] == t[i] == s[d[0]];
      assert forall j: nat :: j <= i && s[j] == p[i] ==> j == d[0];
      SwapDistinct(s, i, d[0]);
      ShuffleOneToOne(t, i - 1, d[1..]);
      assert d == [d[0]] + d[1..];
    }
  }

  lemma SwapDistinct<T(!new)>(s: seq<T>, i: nat, j: nat)
    requires Distinct(s) && i < |s| && j < |s|
    ensures Distinct(Swap(s, i, j))
  {
    var t := Swap(s, i, j);
    forall a, b | 0 <= a < b < |t|
      ensures t[a] != t[b]
    {
      var x := if a == i then j else if a == j then i else a;
      var y := if b == i then j else if b == j then i else b;
      assert t[a] == s[x] && t[b] == s[y] && x != y;
      assert s[if x < y then x else y] != s[if x < y then y else x];
    }
  }

  lemma RecoverStep<T(!new)>(s: seq<T>, i: nat, p: seq<T>) returns (j: nat)
    requires |p| == |s| && 0 < i < |s| && exists k: nat :: k <= i && s[k] == p[i]
    ensures j <= i && s[j] == p[i] && Recover(s, i, p) == [j] + Recover(Swap(s, i, j), i - 1, p)
  {
    j := Recover(s, i, p)[0];
  }

  lemma FirstDraw<T>(s: seq<T>, i: nat, j: nat, d: seq<nat>)
    requires 0 < i < |s| && j <= i && DrawsFrom(i - 1, d)
    ensures DrawsFrom(i, [j] + d) && ShuffleFrom(s, i, [j] + d) == ShuffleFrom(Swap(s, i, j), i - 1, d)
  {
    assert ([j] + d)[1..] == d;
  }

  /** Every rearrangement comes out for some draws. */
  lemma {:induction false} ShuffleOnto<T(!new)>(s: seq<T>, i: nat, p: seq<T>)
    requires |p| == |s| && (i > 0 ==> i < |s|)
    requires i < |s| ==> multiset(s[..i + 1]) == multiset(p[..i + 1]) && s[i + 1..] == p[i + 1..]
    ensures DrawsFrom(i, Recover(s, i, p)) && ShuffleFrom(s, i, Recover(s, i, p)) == p
    decreases i
  {
    if i > 0 {
      ItemInPrefix(s, i, p);
      var j := RecoverStep(s, i, p);
      MoveToTail(s, i, j, p);
      ShuffleOnto(Swap(s, i, j), i - 1, p);
      FirstDraw(s, i, j, Recover(Swap(s, i, j), i - 1, p));
    } else if |s| > 0 {
      ItemInPrefix(s, 0, p);
      assert s == [s[0]] + s[1..] && p == [p[0]] + p[1..];
    }
  }

  lemma ItemInPrefix<T(!new)>(s: seq<T>, i: nat, p: seq<T>)
    requires |p| == |s| && i < |s| && multiset(s[..i + 1]) == multiset(p[..i + 1])
    ensures exists j: nat :: j <= i && s[j] == p[i]
  {
    assert p[..i + 1][i] == p[i];
    assert p[i] in multiset(s[..i + 1]);
    var j: nat :| j < i + 1 && s[..i + 1][j] == p[i];
    assert s[j] == p[i];
  }

  lemma DropLast<T>(t: seq<T>, i: nat)
    requires i < |t|
    ensures multiset(t[..i]) == multiset(t[..i + 1]) - multiset{t[i]}
  {
    assert t[..i + 1] == t[..i] + [t[i]];
  }

  lemma MoveToTail<T(!new)>(s: seq<T>, i: nat, j: nat, p: seq<T>)
    requires |p| == |s| && 0 < i < |s| && j <= i && s[j] == p[i]
    requires multiset(s[..i + 1]) == multiset(p[..i + 1]) && s[i + 1..] == p[i + 1..]
    ensures multiset(Swap(s, i, j)[..i]) == multiset(p[..i]) && Swap(s, i, j)[i..] == p[i..]
  {
    PrefixAfterSwap(s, i, j);
    DropLast(p, i);
    assert Swap(s, i, j)[i..] == [p[i]] + s[i + 1..];
    assert p[i..] == [p[i]] + p[i + 1..];
  }

  lemma PrefixAfterSwap<T>(s: seq<T>, i: nat, j: nat)
    requires i < |s| && j <= i
    ensures multiset(Swap(s, i, j)[..i]) == multiset(s[..i + 1]) - multiset{s[j]}
  {
    SwapPrefix(s, i, j);
    SwapMultiset(s[..i + 1], i, j);
    DropLast(Swap(s, i, j), i);
  }

  lemma SwapPrefix<T>(s: seq<T>, i: nat, j: nat)
    requires i < |s| && j <= i
    ensures Swap(s, i, j)[..i + 1] == Swap(s[..i + 1], i, j)
  {
  }

  /**
   * For distinct items the shuffle is a bijection between draw sequences and rearrangements:
   * each rearrangement comes from exactly one draw sequence, so uniform draws give a uniform order.
   */
  lemma ShuffleIsABijection<T(!new)>(s: seq<T>, p: seq<T>)
    requires Distinct(s)
    ensures multiset(p) == multiset(s) <==> exists d :: ValidDraws(|s|, d) && Shuffled(s, d) == p
    ensures forall d, e :: ValidDraws(|s|, d) && ValidDraws(|s|, e) && Shuffled(s, d) == Shuffled(s, e) ==> d == e
  {
    var i := Top(|s|);
    forall d | ValidDraws(|s|, d)
      ensures Recover(s, i, Shuffled(s, d)) == d && multiset(Shuffled(s, d)) == multiset(s)
    {
      ShuffleOneToOne(s, i, d);
      ShuffleKeepsItems(s, i, d);
    }
    if multiset(p) == multiset(s) {
      assert |multiset(p)| == |p| && |multiset(s)| == |s|;
      if |s| > 0 {
        assert s[..i + 1] == s && p[..i + 1] == p;
      }
      ShuffleOnto(s, i, p);
      assert ValidDraws(|s|, Recover(s, i, p));
    }
  }

  /** Any list, in any order, comes out for some supply of random numbers. */
  lemma EveryOrder<T(!new)>(s: seq<T>, p: seq<T>) returns (picks: seq<nat>)
    requires multiset(p) == multiset(s)
    ensures Shuffled(s, DrawsOf(picks, |s|)) == p
  {
    var i := Top(|s|);
    assert |multiset(p)| == |p| && |multiset(s)| == |s|;
    if |s| > 0 {
      assert s[..i + 1] == s && p[..i + 1] == p;
    }
    ShuffleOnto(s, i, p);
    picks := Recover(s, i, p);
    EveryDraw(|s|, picks);
  }
}
