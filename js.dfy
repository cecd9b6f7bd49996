/**
 * The small part of JavaScript's built-in behaviour that the services rely on:
 * optional values, error outcomes, `String.prototype.trim`,
 * `Array.prototype.find`, and the insertion-ordered `Map` used for the
 * name -> path table.
 */
module Js {

  datatype Option<+T> = None | Some(value: T)

  /** The result of an operation that either completes or throws. */
  datatype Outcome<+E> = Pass | Fail(error: E)

  /**
   * ECMAScript WhiteSpace and LineTerminator code points: exactly the
   * characters `String.prototype.trim` strips from both ends.
   */
  const WHITE_SPACE: seq<char> := [
    '\t', '\n', '\U{000B}', '\U{000C}', '\r', ' ', '\U{00A0}', '\U{1680}',
    '\U{2000}', '\U{2001}', '\U{2002}', '\U{2003}', '\U{2004}', '\U{2005}',
    '\U{2006}', '\U{2007}', '\U{2008}', '\U{2009}', '\U{200A}',
    '\U{2028}', '\U{2029}', '\U{202F}', '\U{205F}', '\U{3000}', '\U{FEFF}'
  ]

  predicate IsWhiteSpace(c: char) {
    Occurs(c, WHITE_SPACE)
  }

  /** `c` is one of `cs`; recursive so that the solver unfolds the list only on demand. */
  predicate Occurs(c: char, cs: seq<char>) {
    cs != [] && (cs[0] == c || Occurs(c, cs[1..]))
  }

  /** True when every character of `s` is white space (so also for ""). */
  predicate IsBlank(s: string) {
    forall i :: 0 <= i < |s| ==> IsWhiteSpace(s[i])
  }

  /** Drops the leading white space of `s`. */
  function TrimStart(s: string): (r: string)
    ensures |r| <= |s| && r == s[|s| - |r|..]
    ensures forall i :: 0 <= i < |s| - |r| ==> IsWhiteSpace(s[i])
    ensures r == [] || !IsWhiteSpace(r[0])
  {
    if s == [] || !IsWhiteSpace(s[0]) then s
    else TrimStart(s[1..])
  }

  /** Drops the trailing white space of `s`. */
  function TrimEnd(s: string): (r: string)
    ensures |r| <= |s| && r == s[..|r|]
    ensures forall i :: |r| <= i < |s| ==> IsWhiteSpace(s[i])
    ensures r == [] || !IsWhiteSpace(r[|r| - 1])
  {
    if s == [] || !IsWhiteSpace(s[|s| - 1]) then s
    else TrimEnd(s[..|s| - 1])
  }

  /** `s.trim()`: `s` without the white space at either end. */
  function Trim(s: string): (r: string)
    ensures |r| <= |s|
    ensures r == [] || (!IsWhiteSpace(r[0]) && !IsWhiteSpace(r[|r| - 1]))
  {
    TrimEnd(TrimStart(s))
  }

  /** A trimmed string is empty exactly when the original is blank. */
  lemma TrimEmptyIffBlank(s: string)
    ensures Trim(s) == [] <==> IsBlank(s)
  {
    var t := TrimStart(s);
    if Trim(s) == [] {
      assert t == [];
    } else {
      var r := Trim(s);
      assert r[0] == t[0] == s[|s| - |t|];
    }
  }

  /** The UTF-16 code units `c` takes: a surrogate pair above U+FFFF, one unit otherwise. */
  function CodeUnits(c: char): nat {
    if c as int > 0xFFFF then 2 else 1
  }

  /**
   * `s.length`, which JavaScript counts in UTF-16 code units: at least one
   * and at most two per code point.
   */
  function Utf16Length(s: string): (n: nat)
    ensures |s| <= n <= 2 * |s|
  {
    if s == [] then 0 else CodeUnits(s[0]) + Utf16Length(s[1..])
  }

  /** The UTF-16 length equals the number of code points exactly when none lies above U+FFFF. */
  lemma {:induction false} Utf16LengthIsCodePoints(s: string)
    ensures Utf16Length(s) == |s| <==> forall i :: 0 <= i < |s| ==> s[i] as int <= 0xFFFF
  {
    if s != [] {
      Utf16LengthIsCodePoints(s[1..]);
      assert forall i :: 1 <= i < |s| ==> s[i] == s[1..][i - 1];
    }
  }

  /** The length of a concatenation is the sum of the lengths. */
  lemma {:induction false} Utf16LengthAppend(a: string, b: string)
    ensures Utf16Length(a + b) == Utf16Length(a) + Utf16Length(b)
  {
    if a == [] {
      assert a + b == b;
    } else {
      assert (a + b)[0] == a[0] && (a + b)[1..] == a[1..] + b;
      Utf16LengthAppend(a[1..], b);
    }
  }

  /** Dropping characters from either end never makes the UTF-16 length grow. */
  lemma Utf16LengthParts(s: string, k: nat)
    requires k <= |s|
    ensures Utf16Length(s[..k]) <= Utf16Length(s)
    ensures Utf16Length(s[k..]) <= Utf16Length(s)
  {
    assert s == s[..k] + s[k..];
    Utf16LengthAppend(s[..k], s[k..]);
  }

  /** Trimming never makes the UTF-16 length grow. */
  lemma TrimUtf16Length(s: string)
    ensures Utf16Length(Trim(s)) <= Utf16Length(s)
  {
    var t := TrimStart(s);
    Utf16LengthParts(s, |s| - |t|);
    Utf16LengthParts(t, |TrimEnd(t)|);
  }

  /** No character of `cs` lies above `bound`, so none above it occurs in `cs`. */
  lemma {:induction false} OccursBelow(c: char, cs: seq<char>, bound: int)
    requires forall i :: 0 <= i < |cs| ==> cs[i] as int <= bound
    requires c as int > bound
    ensures !Occurs(c, cs)
  {
    if cs != [] {
      OccursBelow(c, cs[1..], bound);
    }
  }

  /** Every white-space character lies in the Basic Multilingual Plane. */
  lemma AstralIsNotWhiteSpace(c: char)
    requires c as int > 0xFFFF
    ensures !IsWhiteSpace(c)
  {
    OccursBelow(c, WHITE_SPACE, 0xFFFF);
  }

  /**
   * A string of one character above U+FFFF is left alone by `trim` and has
   * UTF-16 length 2, though it holds a single code point.
   */
  lemma TrimAstralChar(c: char)
    requires c as int > 0xFFFF
    ensures Trim([c]) == [c]
    ensures |[c]| == 1 && Utf16Length([c]) == 2
  {
    AstralIsNotWhiteSpace(c);
    var s := [c];
    assert s[0] == c && s[1..] == [];
    assert TrimStart(s) == s;
  }

  /**
   * `s.find(p)` as the index of the first element satisfying `p`, or None
   * when no element does.
   */
  function FindIndex<T>(s: seq<T>, p: T -> bool): (r: Option<nat>)
    ensures r.Some? ==> r.value < |s| && p(s[r.value])
    ensures r.Some? ==> forall j :: 0 <= j < r.value ==> !p(s[j])
    ensures r.None? <==> forall j :: 0 <= j < |s| ==> !p(s[j])
  {
    if s == [] then None
    else if p(s[0]) then Some(0)
    else match FindIndex(s[1..], p)
      case None => None
      case Some(i) => Some(i + 1)
  }

  /**
   * A JavaScript `Map` whose iteration order matters is a sequence of
   * (key, value) pairs in insertion order with no key twice.
   */
  predicate DistinctKeys<K(==), V>(m: seq<(K, V)>) {
    forall i, j :: 0 <= i < j < |m| ==> m[i].0 != m[j].0
  }

  /**
   * `m.set(k, v)`: an existing key keeps its position and gets the new
   * value; a new key is appended at the end.
   */
  function MapSet<K(==), V>(m: seq<(K, V)>, k: K, v: V): (r: seq<(K, V)>)
    requires DistinctKeys(m)
    ensures DistinctKeys(r)
    ensures forall i :: 0 <= i < |m| && m[i].0 == k ==> r == m[i := (k, v)]
    ensures (forall i :: 0 <= i < |m| ==> m[i].0 != k) ==> r == m + [(k, v)]
  {
    match FindIndex(m, (p: (K, V)) => p.0 == k)
    case Some(i) => m[i := (k, v)]
    case None => m + [(k, v)]
  }
}
