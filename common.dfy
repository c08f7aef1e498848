/**
  Shared vocabulary of the model: optional values and results, the JavaScript
  notions the source relies on (truthiness of an optional string, the white
  space class of regular expressions and of `String.prototype.trim`), and the
  array operations the source uses on its collections (`find`, `filter`, and
  the reversal that a newest-first sort amounts to when the collection is kept
  in creation order).
*/
module Common {

  datatype Option<+T> = None | Some(value: T) {
    /** The value, or `default` when there is none (JavaScript's `x = default` parameter form). */
    function GetOr(default: T): T {
      match this
      case Some(v) => v
      case None => default
    }
  }

  datatype Result<+T, +E> = Ok(value: T) | Err(error: E)

  /** A string that may be absent is truthy in JavaScript when present and non-empty. */
  predicate Truthy(s: Option<string>) {
    s.Some? && s.value != ""
  }

  /** JavaScript line terminators (what `.` in a regular expression refuses). */
  predicate IsLineTerminator(c: char) {
    c == '\n' || c == '\r' || c == '\U{2028}' || c == '\U{2029}'
  }

  /** The class `\s` of JavaScript regular expressions, which is also what `trim` removes. */
  predicate IsSpace(c: char) {
    || IsLineTerminator(c)
    || c == '\t' || c == '\U{B}' || c == '\U{C}' || c == ' '
    || c == '\U{A0}' || c == '\U{1680}' || ('\U{2000}' <= c <= '\U{200A}')
    || c == '\U{202F}' || c == '\U{205F}' || c == '\U{3000}' || c == '\U{FEFF}'
  }

  /** The class `\d`: ASCII decimal digits only. */
  predicate IsDigit(c: char) {
    '0' <= c <= '9'
  }

  predicate IsHexDigit(c: char) {
    IsDigit(c) || ('a' <= c <= 'f') || ('A' <= c <= 'F')
  }

  /** ASCII lower-casing; every other character is left as it is. */
  function LowerAscii(c: char): (r: char)
    ensures 'A' <= c <= 'Z' ==> r as int == c as int + 32
    ensures !('A' <= c <= 'Z') ==> r == c
    ensures !('A' <= r <= 'Z')
  {
    if 'A' <= c <= 'Z' then (c as int + 32) as char else c
  }

  function LowerAsciiString(s: string): (r: string)
    ensures |r| == |s|
    ensures forall k :: 0 <= k < |s| ==> r[k] == LowerAscii(s[k])
  {
    if s == [] then [] else [LowerAscii(s[0])] + LowerAsciiString(s[1..])
  }

  /** `String.prototype.trimStart`. */
  function TrimStart(s: string): (r: string)
    ensures |r| <= |s| && r == s[|s| - |r|..]
    ensures forall k :: 0 <= k < |s| - |r| ==> IsSpace(s[k])
    ensures r != [] ==> !IsSpace(r[0])
  {
    if s != [] && IsSpace(s[0]) then TrimStart(s[1..]) else s
  }

  /** `String.prototype.trimEnd`. */
  function TrimEnd(s: string): (r: string)
    ensures |r| <= |s| && r == s[..|r|]
    ensures forall k :: |r| <= k < |s| ==> IsSpace(s[k])
    ensures r != [] ==> !IsSpace(r[|r| - 1])
  {
    if s != [] && IsSpace(s[|s| - 1]) then TrimEnd(s[..|s| - 1]) else s
  }

  /** `r` occurs in `s` at position `i`. */
  predicate SliceAt(s: string, r: string, i: int) {
    0 <= i <= |s| - |r| && s[i..i + |r|] == r
  }

  /** Every character of `s` before position `i` or from position `j` on is white space. */
  predicate SpaceOutside(s: string, i: int, j: int) {
    && (forall k :: 0 <= k < i && k < |s| ==> IsSpace(s[k]))
    && (forall k :: 0 <= j <= k < |s| ==> IsSpace(s[k]))
  }

  /**
    `String.prototype.trim`: `TrimEnd` after `TrimStart`, the slice of `s` left
    once the white space at either end is dropped, with none left at its ends.
  */
  function Trim(s: string): (r: string)
    ensures |r| <= |s|
    ensures exists i :: SliceAt(s, r, i) && SpaceOutside(s, i, i + |r|)
    ensures r != [] ==> !IsSpace(r[0]) && !IsSpace(r[|r| - 1])
  {
    var t := TrimStart(s);
    var r := TrimEnd(t);
    TrimmedSlice(s, t, r);
    r
  }

  /** What `TrimStart` and then `TrimEnd` leave is a slice of `s` with only white space around it. */
  lemma TrimmedSlice(s: string, t: string, r: string)
    requires |t| <= |s| && t == s[|s| - |t|..]
    requires forall k :: 0 <= k < |s| - |t| ==> IsSpace(s[k])
    requires |r| <= |t| && r == t[..|r|]
    requires forall k :: |r| <= k < |t| ==> IsSpace(t[k])
    ensures SliceAt(s, r, |s| - |t|) && SpaceOutside(s, |s| - |t|, |s| - |t| + |r|)
  {
    var i := |s| - |t|;
    assert s[i..i + |r|] == r;
    forall k | i + |r| <= k < |s| ensures IsSpace(s[k]) {
      assert s[k] == t[k - i];
    }
  }

  /** A string without white space at either end is its own trim. */
  lemma {:induction false} TrimOfTrimmed(s: string)
    requires s == [] || (!IsSpace(s[0]) && !IsSpace(s[|s| - 1]))
    ensures Trim(s) == s
  {
    assert TrimStart(s) == s;
    assert TrimEnd(s) == s;
  }

  /** Case-insensitive substring test: what a `$regex` filter with option "i" does on a plain word. */
  predicate ContainsIgnoreCase(hay: string, needle: string) {
    var h, n := LowerAsciiString(hay), LowerAsciiString(needle);
    exists i | 0 <= i <= |h| - |n| :: SliceAt(h, n, i)
  }

  /** `Array.prototype.findIndex`: the first position whose element satisfies `p`. */
  function FindFirst<T>(s: seq<T>, p: T -> bool): (r: Option<nat>)
    ensures r.Some? ==> r.value < |s| && p(s[r.value])
    ensures r.Some? ==> forall k :: 0 <= k < r.value ==> !p(s[k])
    ensures r.None? <==> forall k :: 0 <= k < |s| ==> !p(s[k])
  {
    if s == [] then None
    else if p(s[0]) then Some(0)
    else match FindFirst(s[1..], p)
      case None => None
      case Some(k) => Some(k + 1)
  }

  /** `Array.prototype.filter`: the elements satisfying `p`, in their original order. */
  function Filter<T>(s: seq<T>, p: T -> bool): (r: seq<T>)
    ensures |r| <= |s|
    ensures forall x :: x in r ==> x in s && p(x)
    ensures forall x :: x in s && p(x) ==> x in r
  {
    if s == [] then []
    else if p(s[0]) then [s[0]] + Filter(s[1..], p)
    else Filter(s[1..], p)
  }

  /** The elements of `s` from last to first. */
  function Reverse<T>(s: seq<T>): (r: seq<T>)
    ensures |r| == |s|
    ensures forall k :: 0 <= k < |s| ==> r[k] == s[|s| - 1 - k]
  {
    if s == [] then [] else Reverse(s[1..]) + [s[0]]
  }

  /** The positions from `i` on of `s` whose elements satisfy `p`, increasing. */
  function PositionsFrom<T>(s: seq<T>, p: T -> bool, i: nat): (r: seq<nat>)
    requires i <= |s|
    ensures |r| == |Filter(s[i..], p)|
    ensures forall k :: 0 <= k < |r| ==> i <= r[k] < |s| && s[r[k]] == Filter(s[i..], p)[k]
    ensures forall k, m :: 0 <= k < m < |r| ==> r[k] < r[m]
    decreases |s| - i
  {
    if i == |s| then []
    else
      var rest := PositionsFrom(s, p, i + 1);
      assert s[i..][1..] == s[i + 1..];
      if p(s[i]) then [i] + rest else rest
  }

  /** The positions of `s` whose elements satisfy `p`, increasing. */
  function PositionsWhere<T>(s: seq<T>, p: T -> bool): (r: seq<nat>)
    ensures |r| == |Filter(s, p)|
    ensures forall k :: 0 <= k < |r| ==> r[k] < |s| && s[r[k]] == Filter(s, p)[k]
    ensures forall k, m :: 0 <= k < m < |r| ==> r[k] < r[m]
  {
    assert s[0..] == s;
    PositionsFrom(s, p, 0)
  }
}
