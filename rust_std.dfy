/**
 * The parts of Rust's standard library the CPU-V core relies on, stated as
 * Dafny values and functions: `Option`, `Result`, panics, and the `str`
 * operations the parsers use (`trim`, `contains`, `split_once`, `splitn`,
 * `split`, `to_lowercase`).
 */
module RustStd {

  datatype Option<+T> = None | Some(value: T)

  /** Rust's `Result<T, E>`: the error is a value, not a panic. */
  datatype Result<+T, +E> = Ok(value: T) | Err(error: E) {
    /** `Result::ok`: the value, dropping the error. */
    function ToOption(): (r: Option<T>)
      ensures r.Some? <==> Ok?
      ensures Ok? ==> r.value == value
    {
      match this
      case Ok(v) => Some(v)
      case Err(_) => None
    }
  }

  /** Why a Rust thread panicked, for the panic sites the core can reach. */
  datatype Panic =
    | UnwrapNone                          // `Option::unwrap` on `None`
    | UnwrapErr(error: string)            // `Result::unwrap` on `Err(error)`
    | IndexOutOfBounds(index: nat, len: nat)
    | SubtractWithOverflow                // `usize` subtraction below zero (debug build)
    | RemainderByZero                     // `x % 0` on integers
    | DivideByZero                        // `x / 0` on integers
    | Explicit(message: string)           // `panic!(...)` with its formatted message
    | NotYetImplemented                   // `todo!()`

  /** The result of Rust code that may panic: a value, or the panic that ended the thread. */
  datatype Outcome<+T> = Done(value: T) | Panicked(panic: Panic)

  // ---------------------------------------------------------------------
  // Characters and whitespace

  /** `char::is_whitespace`: the Unicode White_Space property. */
  predicate IsWhitespace(c: char) {
    || c == ' '
    || ('\t' <= c <= '\r')
    || c == '\U{0085}' || c == '\U{00A0}' || c == '\U{1680}'
    || ('\U{2000}' <= c <= '\U{200A}')
    || c == '\U{2028}' || c == '\U{2029}' || c == '\U{202F}' || c == '\U{205F}'
    || c == '\U{3000}'
  }

  /** `str::trim_start`. */
  function TrimStart(s: string): (r: string)
    ensures |r| <= |s| && r == s[|s| - |r|..]
    ensures forall k :: 0 <= k < |s| - |r| ==> IsWhitespace(s[k])
    ensures r == [] || !IsWhitespace(r[0])
  {
    if s != [] && IsWhitespace(s[0]) then TrimStart(s[1..]) else s
  }

  /** `str::trim_end`. */
  function TrimEnd(s: string): (r: string)
    ensures |r| <= |s| && r == s[..|r|]
    ensures forall k :: |r| <= k < |s| ==> IsWhitespace(s[k])
    ensures r == [] || !IsWhitespace(r[|r| - 1])
  {
    if s != [] && IsWhitespace(s[|s| - 1]) then TrimEnd(s[..|s| - 1]) else s
  }

  /** `str::trim`: the text with leading and trailing whitespace removed. */
  function Trim(s: string): (r: string)
    ensures exists i :: OccursAt(s, r, i)
    ensures r == [] || (!IsWhitespace(r[0]) && !IsWhitespace(r[|r| - 1]))
  {
    var t := TrimStart(s);
    var r := TrimEnd(t);
    var i := |s| - |t|;
    assert s[i..i + |r|] == t[..|r|] == r;
    assert OccursAt(s, r, i);
    r
  }

  /**
   * Trimming removes only whitespace, and only at the two ends: the result
   * sits in `s` at an index before which, and after whose end, every
   * character is whitespace.
   */
  lemma TrimRemovesOnlyEnds(s: string)
    ensures exists i :: OccursAt(s, Trim(s), i) && WhitespaceOutside(s, i, i + |Trim(s)|)
  {
    var t := TrimStart(s);
    var r := TrimEnd(t);
    assert r == Trim(s);
    var i := |s| - |t|;
    assert s[i..i + |r|] == t[..|r|] == r;
    forall k | i + |r| <= k < |s|
      ensures IsWhitespace(s[k])
    {
      assert s[k] == t[k - i];
    }
    assert OccursAt(s, r, i) && WhitespaceOutside(s, i, i + |r|);
  }

  /** Every character of `s` before index `lo` and from index `hi` on is whitespace. */
  predicate WhitespaceOutside(s: string, lo: int, hi: int) {
    (forall k :: 0 <= k < lo && k < |s| ==> IsWhitespace(s[k])) &&
    (forall k :: hi <= k < |s| && 0 <= k ==> IsWhitespace(s[k]))
  }

  /** Text without whitespace at either end is its own trim. */
  lemma TrimmedAlready(s: string)
    requires s == [] || (!IsWhitespace(s[0]) && !IsWhitespace(s[|s| - 1]))
    ensures Trim(s) == s
  {
  }

  /** A character that is not whitespace survives trimming. */
  lemma TrimKeeps(s: string, c: char)
    requires !IsWhitespace(c)
    ensures c in Trim(s) <==> c in s
  {
    var t := TrimStart(s);
    if c in s {
      var k :| 0 <= k < |s| && s[k] == c;
      assert k >= |s| - |t|;
      assert t[k - (|s| - |t|)] == c;
      var r := TrimEnd(t);
      assert k - (|s| - |t|) < |r|;
      assert r[k - (|s| - |t|)] == c;
    }
  }

  // ---------------------------------------------------------------------
  // Substrings

  /** `w` occurs in `s` starting at index `i`. */
  predicate OccursAt(s: string, w: string, i: int) {
    0 <= i && i + |w| <= |s| && s[i..i + |w|] == w
  }

  /** `str::contains` with a string pattern. */
  predicate Contains(s: string, w: string)
    decreases |s|
  {
    |w| <= |s| && (s[..|w|] == w || Contains(s[1..], w))
  }

  /** `contains` finds exactly the occurrences of the pattern. */
  lemma {:induction false} ContainsAt(s: string, w: string)
    ensures Contains(s, w) <==> exists i :: OccursAt(s, w, i)
    decreases |s|
  {
    if |w| <= |s| && s[..|w|] != w {
      ContainsAt(s[1..], w);
      if exists i :: OccursAt(s, w, i) {
        var i :| OccursAt(s, w, i);
        assert i != 0;
        assert OccursAt(s[1..], w, i - 1);
      }
      if Contains(s[1..], w) {
        var i :| OccursAt(s[1..], w, i);
        assert OccursAt(s, w, i + 1);
      }
    } else if |w| <= |s| {
      assert OccursAt(s, w, 0);
    }
  }

  /** A one-character pattern is found iff the character occurs. */
  lemma ContainsChar(s: string, c: char)
    ensures Contains(s, [c]) <==> c in s
  {
    ContainsAt(s, [c]);
    if c in s {
      var i :| 0 <= i < |s| && s[i] == c;
      assert OccursAt(s, [c], i);
    }
    if Contains(s, [c]) {
      var i :| OccursAt(s, [c], i);
      assert s[i] == c;
    }
  }

  /** What a slice of the text contains, the text contains. */
  lemma ContainsInSlice(s: string, i: nat, j: nat, w: string)
    requires i <= j <= |s|
    requires Contains(s[i..j], w)
    ensures Contains(s, w)
  {
    ContainsAt(s[i..j], w);
    var k :| OccursAt(s[i..j], w, k);
    var inner, outer := s[i..j][k..k + |w|], s[i + k..i + k + |w|];
    forall m | 0 <= m < |w|
      ensures inner[m] == outer[m]
    {
    }
    assert inner == outer;
    assert OccursAt(s, w, i + k);
    ContainsAt(s, w);
  }

  /** What the trimmed text contains, the text contains. */
  lemma TrimContains(s: string, w: string)
    requires Contains(Trim(s), w)
    ensures Contains(s, w)
  {
    var r := Trim(s);
    var i :| OccursAt(s, r, i);
    ContainsInSlice(s, i, i + |r|, w);
  }

  // ---------------------------------------------------------------------
  // Splitting

  /** Index of the first occurrence of `c`. */
  function IndexOf(s: string, c: char): (i: nat)
    requires c in s
    ensures i < |s| && s[i] == c && c !in s[..i]
  {
    if s[0] == c then 0 else 1 + IndexOf(s[1..], c)
  }

  /** `str::split_once` with a one-character pattern: the text before and after the first `c`. */
  function SplitOnce(s: string, c: char): (r: Option<(string, string)>)
    ensures r.None? <==> c !in s
    ensures r.Some? ==> s == r.value.0 + [c] + r.value.1 && c !in r.value.0
  {
    if c !in s then None
    else
      var i := IndexOf(s, c);
      assert s == s[..i] + [c] + s[i + 1..];
      Some((s[..i], s[i + 1..]))
  }

  /** The first `c` is at index `i` when `s[i]` is `c` and no earlier character is. */
  lemma {:induction false} IndexOfAt(s: string, c: char, i: nat)
    requires i < |s| && s[i] == c && c !in s[..i]
    ensures IndexOf(s, c) == i
  {
    if i > 0 {
      assert s[0] in s[..i];
      assert s[1..][..i - 1] == s[1..i];
      assert forall k :: 0 <= k < i - 1 ==> s[1..i][k] == s[..i][k + 1];
      IndexOfAt(s[1..], c, i - 1);
    }
  }

  /** `split_once` cuts at the first occurrence of the separator. */
  lemma SplitOnceAt(s: string, c: char, i: nat)
    requires i < |s| && s[i] == c && c !in s[..i]
    ensures SplitOnce(s, c) == Some((s[..i], s[i + 1..]))
  {
    IndexOfAt(s, c, i);
  }

  /** Pieces joined back with the separator. */
  function Join(pieces: seq<string>, c: char): string
    requires |pieces| >= 1
  {
    if |pieces| == 1 then pieces[0] else pieces[0] + [c] + Join(pieces[1..], c)
  }

  /** `str::split` with a one-character pattern. */
  function Split(s: string, c: char): (r: seq<string>)
    ensures |r| >= 1
    ensures forall k :: 0 <= k < |r| ==> c !in r[k]
    decreases |s|
  {
    match SplitOnce(s, c)
    case None => [s]
    case Some((before, after)) => [before] + Split(after, c)
  }

  /** `str::splitn(n, c)`: at most `n` pieces; the last one keeps the rest of the text. */
  function SplitN(s: string, n: nat, c: char): (r: seq<string>)
    requires n >= 1
    ensures 1 <= |r| <= n
    ensures forall k :: 0 <= k < |r| - 1 ==> c !in r[k]
    ensures |r| < n ==> c !in r[|r| - 1]
    decreases n
  {
    if n == 1 then [s]
    else
      match SplitOnce(s, c)
      case None => [s]
      case Some((before, after)) => [before] + SplitN(after, n - 1, c)
  }

  /** Splitting loses nothing: joining the pieces gives the text back. */
  lemma {:induction false} SplitJoin(s: string, c: char)
    ensures Join(Split(s, c), c) == s
    decreases |s|
  {
    match SplitOnce(s, c)
    case None =>
    case Some((before, after)) =>
      SplitJoin(after, c);
  }

  /** The same holds for `splitn`. */
  lemma {:induction false} SplitNJoin(s: string, n: nat, c: char)
    requires n >= 1
    ensures Join(SplitN(s, n, c), c) == s
    decreases n
  {
    var once := SplitOnce(s, c);
    if n > 1 && once.Some? {
      var (before, after) := once.value;
      SplitNJoin(after, n - 1, c);
      assert SplitN(s, n, c) == [before] + SplitN(after, n - 1, c);
    }
  }

  // ---------------------------------------------------------------------
  // Case

  function LowerChar(c: char): char {
    if 'A' <= c <= 'Z' then (c as int - 'A' as int + 'a' as int) as char else c
  }

  function UpperChar(c: char): char {
    if 'a' <= c <= 'z' then (c as int - 'a' as int + 'A' as int) as char else c
  }

  /** `str::to_lowercase`, on ASCII letters. */
  function ToLower(s: string): (r: string)
    ensures |r| == |s| && forall k :: 0 <= k < |s| ==> r[k] == LowerChar(s[k])
  {
    seq(|s|, k requires 0 <= k < |s| => LowerChar(s[k]))
  }

  /** `str::to_uppercase`, on ASCII letters. */
  function ToUpper(s: string): (r: string)
    ensures |r| == |s| && forall k :: 0 <= k < |s| ==> r[k] == UpperChar(s[k])
  {
    seq(|s|, k requires 0 <= k < |s| => UpperChar(s[k]))
  }

  /** Lower-casing ignores the case the text was written in. */
  lemma LowerIgnoresCase(s: string)
    ensures ToLower(ToUpper(s)) == ToLower(s)
    ensures ToLower(ToLower(s)) == ToLower(s)
  {
  }
}
