/** How scad.py cuts a list into output lines: `slices_count =
    int(ceil(len / slice_size))` slices, slice `k` running from
    `k * slice_size` to `min((k + 1) * slice_size, len)`. */
module Chunking {

  function Min(a: int, b: int): int
  {
    if a <= b then a else b
  }

  /** `int(ceil(float(n) / float(k)))`, exact for the counts involved. */
  function CeilDiv(n: nat, k: nat): (q: nat)
    requires k > 0
    ensures q * k >= n
    ensures n == 0 <==> q == 0
  {
    var q := (n + k - 1) / k;
    assert q * k + (n + k - 1) % k == n + k - 1;
    q
  }

  /** Every slice but the last starts before the end of the list. */
  lemma {:induction false} SliceStartInside(n: nat, k: nat, i: nat)
    requires k > 0 && i < CeilDiv(n, k)
    ensures i * k < n
  {
    var q := CeilDiv(n, k);
    assert q * k + (n + k - 1) % k == n + k - 1;
    calc {
      i * k;
    <= (q - 1) * k;
    == q * k - k;
    <= n - 1;
    }
  }

  /** The first index of slice `i`. */
  function SliceStart(i: nat, k: nat): nat
  {
    i * k
  }

  /** One past the last index of slice `i` of a list of length `n`. */
  function SliceEnd(n: nat, k: nat, i: nat): nat
  {
    Min((i + 1) * k, n)
  }

  /** Slice `i` of `s`: `s[slice_start:slice_end]` in the source. */
  function Slice<T>(s: seq<T>, k: nat, i: nat): (c: seq<T>)
    requires k > 0 && i < CeilDiv(|s|, k)
    ensures 0 < |c| <= k
    ensures SliceStart(i, k) < SliceEnd(|s|, k, i) <= |s|
  {
    SliceStartInside(|s|, k, i);
    s[SliceStart(i, k)..SliceEnd(|s|, k, i)]
  }

  /** All slices of `s`, in order. */
  function Slices<T>(s: seq<T>, k: nat): (cs: seq<seq<T>>)
    requires k > 0
    ensures |cs| == CeilDiv(|s|, k)
  {
    seq(CeilDiv(|s|, k), i requires 0 <= i < CeilDiv(|s|, k) => Slice(s, k, i))
  }

  /** Concatenation of a list of lists. */
  function Concat<T>(ss: seq<seq<T>>): seq<T>
  {
    if ss == [] then [] else Concat(ss[..|ss| - 1]) + ss[|ss| - 1]
  }

  lemma ConcatAppend<T>(ss: seq<seq<T>>, t: seq<T>)
    ensures Concat(ss + [t]) == Concat(ss) + t
  {
    assert (ss + [t])[..|ss|] == ss;
  }

  /** The first `j` slices put back together are the list up to where slice `j` starts. */
  lemma {:induction false} SlicesPrefix<T>(s: seq<T>, k: nat, j: nat)
    requires k > 0 && j <= CeilDiv(|s|, k)
    ensures Concat(Slices(s, k)[..j]) == s[..Min(SliceStart(j, k), |s|)]
  {
    var cs := Slices(s, k);
    if j == 0 {
      assert cs[..0] == [];
    } else {
      var i := j - 1;
      SlicesPrefix(s, k, i);
      SliceStartInside(|s|, k, i);
      var a, b := SliceStart(i, k), SliceEnd(|s|, k, i);
      assert Min(a, |s|) == a;
      assert SliceStart(j, k) == a + k;
      assert Min(SliceStart(j, k), |s|) == b;
      assert cs[..j] == cs[..i] + [cs[i]];
      ConcatAppend(cs[..i], cs[i]);
      assert cs[i] == s[a..b];
      assert s[..a] + s[a..b] == s[..b];
    }
  }

  /** The slices put back together are the list: nothing is lost, repeated
      or reordered. */
  lemma {:induction false} SlicesConcat<T>(s: seq<T>, k: nat)
    requires k > 0
    ensures Concat(Slices(s, k)) == s
  {
    var cs := Slices(s, k);
    var q := CeilDiv(|s|, k);
    SlicesPrefix(s, k, q);
    assert cs[..q] == cs;
    assert SliceStart(q, k) >= |s|;
    assert s[..|s|] == s;
  }

  /** Every slice holds `k` items except possibly the last. */
  lemma {:induction false} SliceSizes<T>(s: seq<T>, k: nat, i: nat)
    requires k > 0 && i < CeilDiv(|s|, k)
    ensures i + 1 < CeilDiv(|s|, k) ==> |Slice(s, k, i)| == k
    ensures i + 1 == CeilDiv(|s|, k) ==> SliceEnd(|s|, k, i) == |s|
  {
    if i + 1 < CeilDiv(|s|, k) {
      SliceStartInside(|s|, k, i + 1);
      assert (i + 1) * k < |s|;
    } else {
      var q := CeilDiv(|s|, k);
      assert (i + 1) * k == q * k;
    }
  }

  /** The prefix of `s` one longer than `s[..i]`. */
  lemma PrefixNext<T>(s: seq<T>, i: nat)
    requires i < |s|
    ensures s[..i + 1] == s[..i] + [s[i]]
  {
    assert s[..i + 1] == s[..i] + [s[i]];
  }

  /** Extending a prefix of `s` by the next element of `s`. */
  lemma PrefixStep<T>(front: seq<T>, s: seq<T>, i: nat)
    requires i < |s|
    ensures front + s[..i + 1] == (front + s[..i]) + [s[i]]
  {
    assert s[..i + 1] == s[..i] + [s[i]];
  }

  lemma AppendAssociative<T>(a: seq<T>, b: seq<T>, c: seq<T>)
    ensures (a + b) + c == a + (b + c)
  {
  }

  /** A list joined to others starts with itself. */
  lemma AppendPrefix<T>(a: seq<T>, b: seq<T>, c: seq<T>)
    ensures |a + b + c| >= |a| && (a + b + c)[..|a|] == a
  {
    assert (a + b + c)[..|a|] == a;
  }

  /** Appending two items one at a time appends the pair. */
  lemma AppendPair<T>(s: seq<T>, a: T, b: T)
    ensures s + [a] + [b] == s + [a, b]
  {
  }


  /** The prefix of `s` up to its length is `s`. */
  lemma PrefixAll<T>(front: seq<T>, s: seq<T>)
    ensures front + s[..|s|] == front + s
  {
    assert s[..|s|] == s;
  }

  /** Appending five lists to `front` one after the other appends their concatenation. */
  lemma AppendFive<T>(front: seq<T>, a: seq<T>, b: seq<T>, c: seq<T>, d: seq<T>, e: seq<T>)
    ensures front + (a + b + c + d + e) == front + a + b + c + d + e
  {
  }

  /** `range(a, b)`. */
  function Range(a: int, b: int): (r: seq<int>)
    ensures |r| == if a <= b then b - a else 0
    ensures forall i :: 0 <= i < |r| ==> r[i] == a + i
  {
    seq(if a <= b then b - a else 0, i => a + i)
  }
}
