/**
 * Shared vocabulary: Java's nullable references, its exceptions, and the few
 * java.lang.String operations the repository relies on.
 */
module Base {

  /** A Java reference that may be null. */
  datatype Option<T> = None | Some(value: T)

  /** The exception kinds the modelled code throws or lets escape. */
  datatype Exc =
    | NullPointer
    | IllegalState
    | IllegalArgument
    | IndexOutOfBounds
    | NoSuchElement
    | NumberFormat
    | UnsupportedOperation
    | IOError          // java.io.IOException (and its RuntimeException wrapper)
    | AssertionFailed  // an explicitly thrown java.lang.AssertionError
    | Failure          // a plain java.lang.Error
    | MessagePackError // the msgpack library's runtime exception for a value of the wrong type or a short stream
    | JsonSyntax       // Gson's JsonSyntaxException for a value that does not bind to the requested class

  /** The outcome of a Java call that either returns a value or throws. */
  datatype Result<T> = Ok(value: T) | Err(error: Exc)

  /** What string concatenation appends for a possibly-null String: "null" for null. */
  function JStr(s: Option<string>): string
  {
    if s.Some? then s.value else "null"
  }

  predicate IsDigit(c: char) { '0' <= c <= '9' }
  predicate IsUpper(c: char) { 'A' <= c <= 'Z' }
  predicate IsLower(c: char) { 'a' <= c <= 'z' }
  predicate IsLetter(c: char) { IsUpper(c) || IsLower(c) }

  predicate AllDigits(s: string) { forall i :: 0 <= i < |s| ==> IsDigit(s[i]) }

  /** The numeric value of a string of decimal digits. */
  function DigitsValue(s: string): nat
    requires AllDigits(s)
  {
    if s == [] then 0 else DigitsValue(s[..|s| - 1]) * 10 + (s[|s| - 1] as int - '0' as int)
  }

  /** Largest value of a Java int. */
  const IntMax: int := 0x7fff_ffff

  /** Java's int arithmetic and (int) casts: x wrapped into 32 bits. */
  function Wrap32(x: int): (r: int)
    ensures -0x8000_0000 <= r <= IntMax
    ensures -0x8000_0000 <= x <= IntMax ==> r == x
  {
    (x + 0x8000_0000) % 0x1_0000_0000 - 0x8000_0000
  }

  /** String.startsWith. */
  predicate StartsWith(s: string, prefix: string)
  {
    |prefix| <= |s| && s[..|prefix|] == prefix
  }

  /** String.endsWith. */
  predicate EndsWith(s: string, suffix: string)
  {
    |suffix| <= |s| && s[|s| - |suffix|..] == suffix
  }

  /** `part` occurs in s starting at index i. */
  predicate OccursAt(s: string, part: string, i: int)
  {
    0 <= i <= |s| - |part| && s[i..i + |part|] == part
  }

  /** String.contains. */
  predicate Contains(s: string, part: string)
  {
    exists i :: 0 <= i <= |s| - |part| && OccursAt(s, part, i)
  }

  /** Character.toLowerCase restricted to ASCII letters. */
  function LowerChar(c: char): char
  {
    if IsUpper(c) then (c as int + 32) as char else c
  }

  /** String.toLowerCase on the ASCII letters; every other character is kept. */
  function Lower(s: string): (r: string)
    ensures |r| == |s|
    ensures forall i :: 0 <= i < |s| ==> r[i] == LowerChar(s[i])
  {
    seq(|s|, i requires 0 <= i < |s| => LowerChar(s[i]))
  }

  lemma LowerIdempotent(s: string)
    ensures Lower(Lower(s)) == Lower(s)
  {
  }

  /** Lowercasing neither adds nor removes an underscore. */
  lemma LowerKeepsUnderscores(s: string)
    ensures '_' in Lower(s) <==> '_' in s
  {
    if '_' in s {
      var i :| 0 <= i < |s| && s[i] == '_';
      assert Lower(s)[i] == '_';
    }
    if '_' in Lower(s) {
      var i :| 0 <= i < |s| && Lower(s)[i] == '_';
      assert s[i] == '_';
    }
  }

  /** A coarse fingerprint of a string, enough to tell short literal names apart cheaply. */
  function Fingerprint(s: string): (nat, char, char, char)
  {
    if |s| == 0 then (0, ' ', ' ', ' ')
    else if |s| == 1 then (1, s[0], ' ', s[0])
    else (|s|, s[0], s[1], s[|s| - 1])
  }

  /** String.replace("_", ""). */
  function StripUnderscores(s: string): string
  {
    if s == [] then []
    else if s[0] == '_' then StripUnderscores(s[1..])
    else [s[0]] + StripUnderscores(s[1..])
  }

  /** Removing underscores leaves none, and changes nothing in a string that has none. */
  lemma {:induction false} StripUnderscoresMeaning(s: string)
    ensures '_' !in StripUnderscores(s)
    ensures '_' !in s ==> StripUnderscores(s) == s
  {
    if s != [] {
      StripUnderscoresMeaning(s[1..]);
      assert s == [s[0]] + s[1..];
    }
  }

  /** Removing underscores from "a_rest" keeps the underscore-free part a and continues with rest. */
  lemma {:induction false} StripUnderscoresAt(a: string, rest: string)
    requires '_' !in a
    ensures StripUnderscores(a + "_" + rest) == a + StripUnderscores(rest)
  {
    var x := a + "_" + rest;
    if a == [] {
      assert x[0] == '_' && x[1..] == rest;
    } else {
      assert x[0] == a[0] != '_';
      assert x[1..] == a[1..] + "_" + rest;
      StripUnderscoresAt(a[1..], rest);
      assert StripUnderscores(x) == [a[0]] + (a[1..] + StripUnderscores(rest));
      assert a == [a[0]] + a[1..];
    }
  }

  /** A string without upper-case letters is its own lowercase form. */
  lemma LowerOfLowercase(s: string)
    requires forall i :: 0 <= i < |s| ==> !IsUpper(s[i])
    ensures Lower(s) == s
  {
  }

  /**
   * String.compareTo: the difference of the first differing characters, or
   * the difference of the lengths when one string is a prefix of the other.
   */
  function StrCompare(a: string, b: string): int
  {
    if a == [] || b == [] then |a| - |b|
    else if a[0] != b[0] then a[0] as int - b[0] as int
    else StrCompare(a[1..], b[1..])
  }

  /** Integer.compare. */
  function IntCompare(x: int, y: int): int
  {
    if x < y then -1 else if x == y then 0 else 1
  }

  /** The sign of a comparator result. */
  function Sign(x: int): int
  {
    if x < 0 then -1 else if x == 0 then 0 else 1
  }

  lemma {:induction false} StrCompareAntisymmetric(a: string, b: string)
    ensures StrCompare(a, b) == -StrCompare(b, a)
  {
    if a != [] && b != [] && a[0] == b[0] {
      StrCompareAntisymmetric(a[1..], b[1..]);
    }
  }

  lemma {:induction false} StrCompareZeroIffEqual(a: string, b: string)
    ensures StrCompare(a, b) == 0 <==> a == b
  {
    if a != [] && b != [] && a[0] == b[0] {
      StrCompareZeroIffEqual(a[1..], b[1..]);
      assert a == [a[0]] + a[1..];
      assert b == [b[0]] + b[1..];
    }
  }
}
