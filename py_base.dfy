// Python and numpy semantics that the synthesizer's code relies on: exceptions
// as values, int() on floats, float %, list indexing with negative indices,
// the `in` operator on strings, slicing with a step.

module PyBase {

  /** The exception classes the modelled code can raise. */
  datatype PyError = ValueError | IndexError | KeyError | TypeError

  /** A call that either returns a value or raises. */
  datatype Result<+T> = Ok(value: T) | Err(error: PyError)

  datatype Option<+T> = None | Some(value: T)

  /** Python's `int(x)` on a float: truncation toward zero. */
  function Trunc(x: real): (r: int)
    ensures 0.0 <= x ==> r as real <= x < r as real + 1.0
    ensures x < 0.0 ==> r as real - 1.0 < x <= r as real
  {
    if x >= 0.0 then x.Floor else -((-x).Floor)
  }

  lemma MulLess(m: real, a: real, b: real)
    requires m > 0.0 && a < b
    ensures m * a < m * b
  {
    assert m * b - m * a == m * (b - a);
  }

  lemma MulAtMost(m: real, a: real, b: real)
    requires m >= 0.0 && a <= b
    ensures m * a <= m * b
  {
    assert m * b - m * a == m * (b - a);
  }

  /** Truncations of two non-negative values never add up to more than the
      truncation of a bound on their sum. */
  lemma TruncSumAtMost(x: real, y: real, z: real)
    requires 0.0 <= x && 0.0 <= y && x + y <= z
    ensures 0 <= Trunc(x) && 0 <= Trunc(y) && Trunc(x) + Trunc(y) <= Trunc(z)
  {
    assert (Trunc(x) + Trunc(y)) as real <= z;
  }

  lemma ScaleFloor(x: real, m: real, q: real)
    requires m > 0.0 && q <= x / m < q + 1.0
    ensures m * q <= x < m * q + m
  {
    var y := x / m;
    assert x == m * y;
    MulLess(m, y, q + 1.0);
    assert m * (q + 1.0) == m * q + m;
    assert x < m * q + m;
    MulAtMost(m, q, y);
  }

  /** Python's float `x % m` for a positive modulus: the remainder takes the
      sign of the modulus, so it lies in [0, m), and x differs from it by a
      whole number of moduli. */
  function FloorMod(x: real, m: real): (r: real)
    requires m > 0.0
    ensures 0.0 <= r < m
    ensures ((x - r) / m).Floor as real == (x - r) / m
  {
    var q := (x / m).Floor as real;
    ScaleFloor(x, m, q);
    assert (x - (x - m * q)) / m == q;
    x - m * q
  }

  /** Python's `s[i]` on a list: negative indices count from the end, and an
      index outside [-len, len) raises IndexError. */
  function PyIndex<T>(s: seq<T>, i: int): (r: Result<T>)
    ensures r.Ok? <==> -|s| <= i < |s|
    ensures 0 <= i < |s| ==> r == Ok(s[i])
    ensures -|s| <= i < 0 ==> r == Ok(s[|s| + i])
  {
    if 0 <= i < |s| then Ok(s[i])
    else if -|s| <= i < 0 then Ok(s[|s| + i])
    else Err(IndexError)
  }

  /** `str(d)` for a decimal digit d, as a character. */
  function Digit(d: nat): char
    requires d < 10
  {
    ('0' as int + d) as char
  }

  /** `pat` occurs in `s` starting at index i. */
  ghost predicate OccursAt(s: string, pat: string, i: int)
  {
    0 <= i <= |s| - |pat| && s[i..i + |pat|] == pat
  }

  /** Python's `pat in s` on strings: pat is a prefix of s or of one of its
      suffixes. */
  function Contains(s: string, pat: string): bool
    decreases |s|
  {
    if |pat| > |s| then false
    else if s[..|pat|] == pat then true
    else if |s| == 0 then false
    else Contains(s[1..], pat)
  }

  /** The substring test holds exactly when pat occurs at some position. */
  lemma {:induction false} ContainsOccurs(s: string, pat: string)
    ensures Contains(s, pat) <==> exists i :: OccursAt(s, pat, i)
    decreases |s|
  {
    if |pat| > |s| {
    } else if s[..|pat|] == pat {
      assert OccursAt(s, pat, 0);
    } else if |s| > 0 {
      ContainsOccurs(s[1..], pat);
      if Contains(s[1..], pat) {
        var i :| OccursAt(s[1..], pat, i);
        assert s[1..][i..i + |pat|] == s[i + 1..i + 1 + |pat|];
        assert OccursAt(s, pat, i + 1);
      }
      if exists i :: OccursAt(s, pat, i) {
        var i :| OccursAt(s, pat, i);
        assert i != 0;
        assert s[1..][i - 1..i - 1 + |pat|] == s[i..i + |pat|];
        assert OccursAt(s[1..], pat, i - 1);
      }
    }
  }

  /** A pattern with a character that s lacks does not occur in s. */
  lemma NotContained(s: string, pat: string, c: char)
    requires c in pat && c !in s
    ensures !Contains(s, pat)
  {
    ContainsOccurs(s, pat);
  }

  lemma Contained(s: string, pat: string, i: int)
    requires OccursAt(s, pat, i)
    ensures Contains(s, pat)
  {
    ContainsOccurs(s, pat);
  }

  lemma MulAtLeast(d: int, k: int)
    requires d >= 1 && k > 0
    ensures d * k >= k
  {
    assert d * k - k == (d - 1) * k;
  }

  /** Euclidean division is determined by quotient and remainder. */
  lemma DivUnique(a: int, k: int, q: int, r: int)
    requires k > 0 && 0 <= r < k && a == q * k + r
    ensures a / k == q
  {
    var q', r' := a / k, a % k;
    assert a == q' * k + r';
    if q > q' { assert (q - q') * k == q * k - q' * k; MulAtLeast(q - q', k); }
    if q' > q { assert (q' - q) * k == q' * k - q * k; MulAtLeast(q' - q, k); }
  }

  /** Python's `s[::k]` for a positive step: s[0], s[k], s[2k], ... */
  function EveryKth<T>(s: seq<T>, k: nat): (r: seq<T>)
    requires k > 0
    decreases |s|
  {
    if |s| == 0 then [] else [s[0]] + EveryKth(if k <= |s| then s[k..] else [], k)
  }

  lemma {:induction false} EveryKthLength<T>(s: seq<T>, k: nat)
    requires k > 0
    ensures |EveryKth(s, k)| == (|s| + k - 1) / k
    decreases |s|
  {
    if |s| == 0 {
      DivUnique(k - 1, k, 0, k - 1);
    } else if k <= |s| {
      var rest := s[k..];
      EveryKthLength(rest, k);
      var q, r := (|rest| + k - 1) / k, (|rest| + k - 1) % k;
      assert |rest| + k - 1 == q * k + r;
      DivUnique(|s| + k - 1, k, q + 1, r);
    } else {
      assert EveryKth(s, k) == [s[0]];
      DivUnique(|s| + k - 1, k, 1, |s| - 1);
    }
  }

  lemma {:induction false} EveryKthAt<T>(s: seq<T>, k: nat, i: nat)
    requires k > 0 && i < |EveryKth(s, k)|
    ensures i * k < |s| && EveryKth(s, k)[i] == s[i * k]
    decreases |s|
  {
    if i > 0 {
      var rest := if k <= |s| then s[k..] else [];
      assert EveryKth(s, k)[i] == EveryKth(rest, k)[i - 1];
      EveryKthAt(rest, k, i - 1);
      assert (i - 1) * k == i * k - k;
    }
  }

  lemma EveryKthShape<T>(s: seq<T>, k: nat)
    requires k > 0
    ensures |EveryKth(s, k)| == (|s| + k - 1) / k
    ensures forall i :: 0 <= i < |EveryKth(s, k)| ==> i * k < |s| && EveryKth(s, k)[i] == s[i * k]
  {
    EveryKthLength(s, k);
    forall i | 0 <= i < |EveryKth(s, k)|
      ensures i * k < |s| && EveryKth(s, k)[i] == s[i * k]
    {
      EveryKthAt(s, k, i);
    }
  }

  function Reverse<T>(s: seq<T>): (r: seq<T>)
    ensures |r| == |s|
    ensures forall i :: 0 <= i < |s| ==> r[i] == s[|s| - 1 - i]
  {
    if |s| == 0 then [] else Reverse(s[1..]) + [s[0]]
  }

  /** Python's `s[::step]`: a zero step raises ValueError, a negative one
      walks backwards from the last element. */
  function StepSlice<T>(s: seq<T>, step: int): (r: Result<seq<T>>)
    ensures r.Err? <==> step == 0
    ensures step > 0 ==> r.Ok? && |r.value| == (|s| + step - 1) / step
                         && forall i :: 0 <= i < |r.value| ==> i * step < |s| && r.value[i] == s[i * step]
    ensures step < 0 ==> r.Ok? && |r.value| == (|s| - step - 1) / -step
                         && forall i :: 0 <= i < |r.value| ==> 0 <= |s| - 1 + i * step && r.value[i] == s[|s| - 1 + i * step]
  {
    if step == 0 then Err(ValueError)
    else if step > 0 then
      EveryKthShape(s, step);
      Ok(EveryKth(s, step))
    else
      var rev := Reverse(s);
      EveryKthShape(rev, -step);
      assert forall i :: 0 <= i < |EveryKth(rev, -step)| ==> i * -step == -(i * step);
      Ok(EveryKth(rev, -step))
  }

  /** Python's `s.index(x)` as a value: the first position holding x, or None
      where Python raises ValueError. */
  function IndexOf<T(==)>(s: seq<T>, x: T): (r: Option<nat>)
    ensures r.None? <==> x !in s
    ensures r.Some? ==> r.value < |s| && s[r.value] == x && x !in s[..r.value]
  {
    if |s| == 0 then None
    else if s[0] == x then Some(0)
    else
      var rest := IndexOf(s[1..], x);
      if rest.None? then None
      else
        assert s[..rest.value + 1] == [s[0]] + s[1..][..rest.value];
        Some(rest.value + 1)
  }
}
