/**
 * The pieces of Python's built-in behaviour that the bot relies on: list slicing
 * with a negative start, `str.startswith`, `str.replace`, the `in` test on strings,
 * `str(int)`, and the exceptions that subscription can raise.
 */
module PyCore {

  /** The exceptions the modelled code can raise. `ClientError` stands for any failure
      of the HTTP round trip, including a body that is not JSON. */
  datatype PyException = KeyError | IndexError | TypeError | AttributeError | ClientError

  /** A Python expression either yields a value or raises. */
  datatype PyResult<+T> = Ok(value: T) | Raise(exc: PyException)

  function Min(a: int, b: int): int { if a <= b then a else b }

  // ---------------------------------------------------------------------------
  // Slicing

  /** `s[start:]`, where a negative `start` counts from the end and is clamped at 0. */
  function SliceFrom<T>(s: seq<T>, start: int): (r: seq<T>)
    ensures |r| <= |s| && r == s[|s| - |r|..]
  {
    if start >= 0 then (if start <= |s| then s[start..] else [])
    else if -start <= |s| then s[|s| + start..]
    else s
  }

  /** The last `n` elements of `s` (all of `s` when it is shorter), built element by
      element from the back; the reference that negative slicing is checked against. */
  function Last<T>(s: seq<T>, n: nat): seq<T>
    decreases n
  {
    if n == 0 || s == [] then [] else Last(s[..|s| - 1], n - 1) + [s[|s| - 1]]
  }

  /** `Last(s, n)` is the suffix of `s` of length `min(n, |s|)`. */
  lemma {:induction false} LastIsSuffix<T>(s: seq<T>, n: nat)
    ensures |Last(s, n)| == Min(n, |s|)
    ensures Last(s, n) == s[|s| - Min(n, |s|)..]
    decreases n
  {
    if n != 0 && s != [] {
      var init := s[..|s| - 1];
      LastIsSuffix(init, n - 1);
      assert init[|init| - Min(n - 1, |init|)..] + [s[|s| - 1]] == s[|s| - Min(n, |s|)..];
    }
  }

  /** For `n >= 1`, `s[-n:]` keeps exactly the last `n` elements. */
  lemma SliceFromNegative<T>(s: seq<T>, n: nat)
    requires n >= 1
    ensures SliceFrom(s, -(n as int)) == Last(s, n)
    ensures |SliceFrom(s, -(n as int))| == Min(n, |s|)
  {
    LastIsSuffix(s, n);
  }

  /** For `n == 0`, `s[-n:]` is `s[0:]`: the whole list, not the empty one. */
  lemma SliceFromMinusZero<T>(s: seq<T>)
    ensures SliceFrom(s, -0) == s
    ensures s != [] ==> SliceFrom(s, -0) != Last(s, 0)
  {
  }

  // ---------------------------------------------------------------------------
  // Strings

  /** `s.startswith(p)` */
  predicate StartsWith(s: string, p: string)
  {
    |p| <= |s| && s[..|p|] == p
  }

  /** `p in s`: whether `p` occurs in `s` as a contiguous substring. */
  predicate Occurs(p: string, s: string)
    decreases |s|
  {
    StartsWith(s, p) || (s != [] && Occurs(p, s[1..]))
  }

  /** A non-empty pattern whose first character is not in `s` does not occur in `s`. */
  lemma {:induction false} NotOccursWithoutFirstChar(p: string, s: string)
    requires p != [] && p[0] !in s
    ensures !Occurs(p, s)
    decreases |s|
  {
    if s != [] {
      assert forall c :: c in s[1..] ==> c in s;
      NotOccursWithoutFirstChar(p, s[1..]);
    }
  }

  /** `s.replace(pat, rep)`: every non-overlapping occurrence of `pat`, scanning from
      the left, is replaced by `rep`; an empty `pat` inserts `rep` around every character. */
  function Replace(s: string, pat: string, rep: string): (r: string)
    ensures pat != [] && !Occurs(pat, s) ==> r == s
    decreases |s|
  {
    if pat == [] then
      (if s == [] then rep else rep + [s[0]] + Replace(s[1..], pat, rep))
    else if StartsWith(s, pat) then rep + Replace(s[|pat|..], pat, rep)
    else if s == [] then []
    else [s[0]] + Replace(s[1..], pat, rep)
  }

  /** Deleting a non-empty pattern never lengthens a string, and shortens it whenever
      the pattern occurs. */
  lemma {:induction false} DeleteShrinks(s: string, pat: string)
    requires pat != []
    ensures |Replace(s, pat, "")| <= |s|
    ensures Occurs(pat, s) ==> |Replace(s, pat, "")| < |s|
    decreases |s|
  {
    if StartsWith(s, pat) {
      DeleteShrinks(s[|pat|..], pat);
    } else if s != [] {
      DeleteShrinks(s[1..], pat);
    }
  }

  /** Deleting a non-empty pattern that does not occur leaves the string as it was. */
  lemma {:induction false} DeleteAbsent(s: string, pat: string)
    requires pat != [] && !Occurs(pat, s)
    ensures Replace(s, pat, "") == s
    decreases |s|
  {
    if s != [] {
      DeleteAbsent(s[1..], pat);
    }
  }

  /** Deleting a non-empty pattern is the identity exactly on the strings it does not occur in. */
  lemma DeleteIdentityIff(s: string, pat: string)
    requires pat != []
    ensures Replace(s, pat, "") == s <==> !Occurs(pat, s)
  {
    DeleteShrinks(s, pat);
    if !Occurs(pat, s) {
      DeleteAbsent(s, pat);
    }
  }

  // ---------------------------------------------------------------------------
  // Numbers as text

  function DigitChar(d: nat): char
    requires d < 10
  {
    "0123456789"[d]
  }

  function NatToStr(n: nat): string
    decreases n
  {
    if n < 10 then [DigitChar(n)] else NatToStr(n / 10) + [DigitChar(n % 10)]
  }

  /** `str(i)` for a Python `int`: decimal digits, with a leading `-` when negative. */
  function IntToStr(i: int): string
  {
    if i < 0 then "-" + NatToStr(-i) else NatToStr(i)
  }

}
