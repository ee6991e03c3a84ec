/**
 * The random helpers of src/extrafunc.c. The values `rand()` returns are
 * given as a sequence, one per call, each non-negative; seeding with the
 * clock plays no part.
 */
module ExtraFunc {
  import opened CStrings
  import Arith

  predicate Nonnegative(rs: seq<int>) { forall k :: 0 <= k < |rs| ==> rs[k] >= 0 }

  /**
   * `randomize`: `rand() % (max - min + 1) + min` with C's remainder. When
   * `max - min + 1` is 0 the C code divides by zero, hence the requirement.
   */
  function Randomize(min: int, max: int, r: int): (v: int)
    requires r >= 0 && max - min + 1 != 0
    ensures min <= v
    ensures min <= max ==> v <= max
    ensures v - min == r % Arith.Abs(max - min + 1)
  {
    Arith.TruncMod(r, max - min + 1) + min
  }

  /** `rand() % (i + 1)`: an index from 0 to `i`. */
  function Pick(r: int, i: nat): (j: nat)
    requires r >= 0
    ensures j <= i
  {
    r % (i + 1)
  }

  /** The two elements at `i` and `j` trade places. */
  function Swap<T>(s: seq<T>, i: nat, j: nat): (r: seq<T>)
    requires i < |s| && j < |s|
    ensures |r| == |s| && r[i] == s[j] && r[j] == s[i]
    ensures forall k :: 0 <= k < |s| && k != i && k != j ==> r[k] == s[k]
  {
    s[i := s[j]][j := s[i]]
  }

  /** The loop from index `i` down to 1, one `rand` value per step. */
  function Shuffle<T>(s: seq<T>, i: int, rs: seq<int>): seq<T>
    requires i < |s| && (i > 0 ==> |rs| >= i) && Nonnegative(rs)
    decreases i
  {
    if i <= 0 then s else Shuffle(Swap(s, i, Pick(rs[0], i)), i - 1, rs[1..])
  }

  lemma SwapPermutes<T>(s: seq<T>, i: nat, j: nat)
    requires i < |s| && j < |s|
    ensures multiset(Swap(s, i, j)) == multiset(s)
  {
    var t := s[i := s[j]];
    assert multiset(t) == multiset(s) - multiset{s[i]} + multiset{s[j]};
  }

  /** Whatever `rand` returns, the shuffle only rearranges. */
  lemma {:induction false} ShufflePermutes<T>(s: seq<T>, i: int, rs: seq<int>)
    requires i < |s| && (i > 0 ==> |rs| >= i) && Nonnegative(rs)
    ensures |Shuffle(s, i, rs)| == |s|
    ensures multiset(Shuffle(s, i, rs)) == multiset(s)
    decreases i
  {
    if i > 0 {
      var j := Pick(rs[0], i);
      SwapPermutes(s, i, j);
      ShufflePermutes(Swap(s, i, j), i - 1, rs[1..]);
    }
  }

  /** The elements above the starting index are never touched. */
  lemma {:induction false} ShuffleKeepsTail<T>(s: seq<T>, i: int, rs: seq<int>, k: nat)
    requires i < |s| && (i > 0 ==> |rs| >= i) && Nonnegative(rs)
    requires i < k < |s|
    ensures |Shuffle(s, i, rs)| == |s| && Shuffle(s, i, rs)[k] == s[k]
    decreases i
  {
    ShufflePermutes(s, i, rs);
    if i > 0 {
      ShuffleKeepsTail(Swap(s, i, Pick(rs[0], i)), i - 1, rs[1..], k);
    }
  }

  /** One step of the loop: `temp = a[i]; a[i] = a[j]; a[j] = temp`, and `i--`. */
  method SwapStep<T>(a: array<T>, i: nat, j: nat)
    requires i < a.Length && j < a.Length
    modifies a
    ensures a[..] == Swap(old(a[..]), i, j)
  {
    var temp := a[i];
    a[i] := a[j];
    a[j] := temp;
  }

  /** The descending `for` loop both shufflers share, over the first `n` slots. */
  method ShuffleLoop<T>(a: array<T>, n: nat, rands: seq<int>)
    requires n <= a.Length && (n > 1 ==> |rands| >= n - 1) && Nonnegative(rands)
    modifies a
    ensures a[..n] == Shuffle(old(a[..n]), n - 1, rands)
    ensures a[n..] == old(a[n..])
  {
    var i := n - 1;
    var k := 0;
    while i > 0
      invariant -1 <= i < n && (i > 0 ==> k == n - 1 - i) && k <= |rands|
      invariant i > 0 ==> |rands[k..]| >= i
      invariant Shuffle(old(a[..n]), n - 1, rands) == Shuffle(a[..n], i, rands[k..])
      invariant a[n..] == old(a[n..])
      decreases i
    {
      var j := Pick(rands[k], i);
      ghost var before := a[..];
      SwapStep(a, i, j);
      assert a[..n] == Swap(before[..n], i, j);
      assert rands[k..][1..] == rands[k + 1..];
      i := i - 1;
      k := k + 1;
    }
  }

  /**
   * `randomize_list`: the first `size` elements end up as the shuffle of
   * their old order; the rest of the array is untouched.
   */
  method RandomizeList(list: array<int>, size: int, rands: seq<int>)
    requires size <= list.Length && (size > 1 ==> |rands| >= size - 1) && Nonnegative(rands)
    modifies list
    ensures var n := if size < 0 then 0 else size;
      && list[..n] == Shuffle(old(list[..n]), size - 1, rands)
      && multiset(list[..n]) == multiset(old(list[..n]))
      && list[n..] == old(list[n..])
    ensures size <= 1 ==> list[..] == old(list[..])
  {
    var n: nat := if size < 0 then 0 else size;
    ShuffleLoop(list, n, rands);
    ShufflePermutes(old(list[..n]), n - 1, rands);
    assert list[..] == list[..n] + list[n..];
    assert old(list[..]) == old(list[..n]) + old(list[n..]);
  }

  /**
   * `randomize_string`: the characters before the NUL are shuffled, the NUL
   * stays where it was, so `strlen` is unchanged.
   */
  method RandomizeString(str: array<char>, rands: seq<int>)
    requires exists k :: 0 <= k < str.Length && str[k] == '\0'
    requires NulAt(str[..]) > 1 ==> |rands| >= NulAt(str[..]) - 1
    requires Nonnegative(rands)
    modifies str
    ensures var n := NulAt(old(str[..]));
      && str[..n] == Shuffle(old(str[..n]), n - 1, rands)
      && multiset(str[..n]) == multiset(old(str[..n]))
      && str[n..] == old(str[n..])
    ensures NulAt(str[..]) == NulAt(old(str[..]))
  {
    var n := Strlen(str);
    ShuffleLoop(str, n, rands);
    ShufflePermutes(old(str[..n]), n as int - 1, rands);
    NulKept(old(str[..]), str[..], n);
  }

  /** Rearranging the characters before the first NUL leaves it the first. */
  lemma NulKept(before: seq<char>, after: seq<char>, n: nat)
    requires n == NulAt(before) && n < |before| == |after|
    requires multiset(after[..n]) == multiset(before[..n]) && after[n..] == before[n..]
    ensures NulAt(after) == n
  {
    forall j | 0 <= j < n ensures after[j] != '\0' {
      assert after[j] in multiset(after[..n]) by {
        assert after[j] == after[..n][j];
      }
      assert after[j] in before[..n];
    }
    assert after[n] == after[n..][0];
  }
}
