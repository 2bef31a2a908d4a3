/**
  The string comparer StringComparer.OrdinalIgnoreCase, restricted to ASCII case
  folding: both strings are upper-cased character by character and then compared
  ordinally, character code by character code, a proper prefix sorting first.
  Only the sign of the comparison is modelled (-1, 0 or 1).
 */
module OrdinalIgnoreCase {

  /** Upper-case mapping of the ASCII letters; every other character is unchanged. */
  function ToUpperAscii(c: char): char {
    if 'a' <= c <= 'z' then (c as int - 32) as char else c
  }

  /** The upper-cased form of a string, on which the comparer works. */
  function Fold(s: string): string {
    seq(|s|, i requires 0 <= i < |s| => ToUpperAscii(s[i]))
  }

  /** Equality of two strings under the comparer. */
  predicate EqualsIgnoreCase(a: string, b: string): (r: bool)
    ensures a == b ==> r
    ensures r ==> |a| == |b|
  {
    Fold(a) == Fold(b)
  }

  /** Ordinal lexicographic comparison of two strings. */
  function CompareOrdinal(a: string, b: string): (r: int)
    ensures -1 <= r <= 1
    ensures a == [] ==> r <= 0
    decreases |a|
  {
    if a == [] && b == [] then 0
    else if a == [] then -1
    else if b == [] then 1
    else if a[0] < b[0] then -1
    else if a[0] > b[0] then 1
    else CompareOrdinal(a[1..], b[1..])
  }

  /** A proper prefix sorts before the longer string. */
  lemma {:induction false} CompareOrdinalPrefix(a: string, s: string)
    requires s != []
    ensures CompareOrdinal(a, a + s) == -1
    decreases |a|
  {
    if a != [] {
      assert (a + s)[0] == a[0] && (a + s)[1..] == a[1..] + s;
      CompareOrdinalPrefix(a[1..], s);
    }
  }

  lemma {:induction false} CompareOrdinalZero(a: string, b: string)
    ensures CompareOrdinal(a, b) == 0 <==> a == b
    decreases |a|
  {
    if a != [] && b != [] && a[0] == b[0] {
      CompareOrdinalZero(a[1..], b[1..]);
      assert a == [a[0]] + a[1..] && b == [b[0]] + b[1..];
    }
  }

  lemma {:induction false} CompareOrdinalAntisymmetric(a: string, b: string)
    ensures CompareOrdinal(b, a) == -CompareOrdinal(a, b)
    decreases |a|
  {
    if a != [] && b != [] && a[0] == b[0] {
      CompareOrdinalAntisymmetric(a[1..], b[1..]);
    }
  }

  lemma {:induction false} CompareOrdinalTransitive(a: string, b: string, c: string)
    requires CompareOrdinal(a, b) <= 0 && CompareOrdinal(b, c) <= 0
    ensures CompareOrdinal(a, c) <= 0
    decreases |a|
  {
    if a != [] && b != [] && c != [] && a[0] == b[0] && b[0] == c[0] {
      CompareOrdinalTransitive(a[1..], b[1..], c[1..]);
    }
  }

  /** The comparer's Compare: negative, zero or positive as a sorts before, with or after b. */
  function Compare(a: string, b: string): (r: int)
    ensures -1 <= r <= 1
    ensures r == 0 <==> EqualsIgnoreCase(a, b)
  {
    CompareOrdinalZero(Fold(a), Fold(b));
    CompareOrdinal(Fold(a), Fold(b))
  }

  lemma CompareAntisymmetric(a: string, b: string)
    ensures Compare(b, a) == -Compare(a, b)
  {
    CompareOrdinalAntisymmetric(Fold(a), Fold(b));
  }

  lemma CompareTransitive(a: string, b: string, c: string)
    requires Compare(a, b) <= 0 && Compare(b, c) <= 0
    ensures Compare(a, c) <= 0
  {
    CompareOrdinalTransitive(Fold(a), Fold(b), Fold(c));
  }
}
