/** The string operations the storefront relies on, over plain code points:
    `toLowerCase` (ASCII letters only), `includes`, and `localeCompare`
    taken as code-point lexicographic order. */
module Text {
  import opened Wrappers

  /** JavaScript truthiness of a string that may be missing (`null` or
      `undefined` as None): present and non-empty. */
  predicate Truthy(s: Option<string>)
  {
    s.Some? && s.value != ""
  }

  /** `toLowerCase` on one character: ASCII capitals move down by 32,
      everything else is left alone. */
  function LowerChar(c: char): (r: char)
    ensures 'A' <= c <= 'Z' ==> r as int == c as int + 32
    ensures !('A' <= c <= 'Z') ==> r == c
    ensures !('A' <= r <= 'Z')
  {
    if 'A' <= c <= 'Z' then (c as int + 32) as char else c
  }

  /** `toLowerCase` on a string: the same length, each character lowered,
      and no ASCII capital left. */
  function Lower(s: string): (r: string)
    ensures |r| == |s|
    ensures forall i :: 0 <= i < |s| ==> r[i] == LowerChar(s[i])
    ensures forall i :: 0 <= i < |r| ==> !('A' <= r[i] <= 'Z')
  {
    seq(|s|, i requires 0 <= i < |s| => LowerChar(s[i]))
  }

  /** Lowering twice is lowering once. */
  lemma LowerIdempotent(s: string)
    ensures Lower(Lower(s)) == Lower(s)
  {
    var r := Lower(s);
    forall i | 0 <= i < |r|
      ensures Lower(r)[i] == r[i]
    {
      assert !('A' <= r[i] <= 'Z');
    }
  }

  /** The characters n[j..] sit in h from offset i + j on. */
  predicate MatchesAt(h: string, n: string, i: nat, j: nat)
    requires i + |n| <= |h|
    decreases |n| - j
  {
    j >= |n| || (h[i + j] == n[j] && MatchesAt(h, n, i, j + 1))
  }

  /** n occurs in h at some offset i or later. */
  predicate IncludesFrom(h: string, n: string, i: nat)
    decreases |h| - i
  {
    i + |n| <= |h| && (MatchesAt(h, n, i, 0) || IncludesFrom(h, n, i + 1))
  }

  /** `h.includes(n)`: the search that `String.prototype.includes` performs,
      trying each offset from the left. */
  predicate Includes(h: string, n: string)
  {
    IncludesFrom(h, n, 0)
  }

  /** Reference meaning of one offset check: a slice comparison. */
  lemma {:induction false} MatchesAtIsSlice(h: string, n: string, i: nat, j: nat)
    requires i + |n| <= |h| && j <= |n|
    ensures MatchesAt(h, n, i, j) <==> h[i + j..i + |n|] == n[j..]
    decreases |n| - j
  {
    if j < |n| {
      MatchesAtIsSlice(h, n, i, j + 1);
      assert h[i + j..i + |n|] == [h[i + j]] + h[i + j + 1..i + |n|];
      assert n[j..] == [n[j]] + n[j + 1..];
    }
  }

  /** n sits in h at offset k. */
  predicate OccursAt(h: string, n: string, k: nat)
  {
    k + |n| <= |h| && h[k..k + |n|] == n
  }

  /** Reference meaning of the search from offset i: some offset k >= i
      where the slice of h equals n. */
  lemma {:induction false} IncludesFromIsSlice(h: string, n: string, i: nat)
    ensures IncludesFrom(h, n, i) <==> exists k: nat :: i <= k && OccursAt(h, n, k)
    decreases |h| - i
  {
    if i + |n| <= |h| {
      MatchesAtIsSlice(h, n, i, 0);
      IncludesFromIsSlice(h, n, i + 1);
      if MatchesAt(h, n, i, 0) {
        assert OccursAt(h, n, i);
      } else if IncludesFrom(h, n, i + 1) {
        var k: nat :| i + 1 <= k && OccursAt(h, n, k);
        assert i <= k;
      }
      if exists k: nat :: i <= k && OccursAt(h, n, k) {
        var k: nat :| i <= k && OccursAt(h, n, k);
        if k != i {
          assert i + 1 <= k && OccursAt(h, n, k);
        }
      }
    }
  }

  /** `includes` holds exactly when the needle is a slice of the haystack. */
  lemma IncludesIsSlice(h: string, n: string)
    ensures Includes(h, n) <==> exists k: nat :: OccursAt(h, n, k)
  {
    IncludesFromIsSlice(h, n, 0);
  }

  /** Every string includes the empty string. */
  lemma IncludesEmpty(h: string)
    ensures Includes(h, "")
  {
    IncludesIsSlice(h, "");
    assert OccursAt(h, "", 0);
  }

  /** If h includes m and m includes n, then h includes n. */
  lemma IncludesTransitive(h: string, m: string, n: string)
    requires Includes(h, m) && Includes(m, n)
    ensures Includes(h, n)
  {
    IncludesIsSlice(h, m);
    IncludesIsSlice(m, n);
    var a: nat :| OccursAt(h, m, a);
    var b: nat :| OccursAt(m, n, b);
    forall k | 0 <= k < |n|
      ensures h[a + b + k] == n[k]
    {
      assert m[b..b + |n|][k] == m[b + k];
      assert h[a..a + |m|][b + k] == h[a + b + k];
    }
    assert h[a + b..a + b + |n|] == n;
    assert OccursAt(h, n, a + b);
    IncludesIsSlice(h, n);
  }

  /** `a.localeCompare(b)` taken as code-point lexicographic order: negative
      when a sorts first, zero when equal, positive when b sorts first. A
      proper prefix sorts first. */
  function CompareStrings(a: string, b: string): (r: int)
    ensures -1 <= r <= 1
    ensures r == 0 <==> a == b
  {
    if a == [] && b == [] then 0
    else if a == [] then -1
    else if b == [] then 1
    else if a[0] < b[0] then -1
    else if a[0] > b[0] then 1
    else
      var r := CompareStrings(a[1..], b[1..]);
      assert a == [a[0]] + a[1..] && b == [b[0]] + b[1..];
      r
  }

  /** Swapping the operands flips the sign. */
  lemma {:induction false} CompareStringsAntisymmetric(a: string, b: string)
    ensures CompareStrings(b, a) == -CompareStrings(a, b)
  {
    if a != [] && b != [] && a[0] == b[0] {
      CompareStringsAntisymmetric(a[1..], b[1..]);
    }
  }

  /** "Sorts no later than" is transitive. */
  lemma {:induction false} CompareStringsTransitive(a: string, b: string, c: string)
    requires CompareStrings(a, b) <= 0 && CompareStrings(b, c) <= 0
    ensures CompareStrings(a, c) <= 0
  {
    if a != [] && b != [] && c != [] && a[0] == b[0] == c[0] {
      CompareStringsTransitive(a[1..], b[1..], c[1..]);
    }
  }
}
