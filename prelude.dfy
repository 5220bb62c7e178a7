/** The parts of Rust's standard library the card game relies on: fixed-width
    integers, `Option`, `Ordering`, the comparison of integers and `str::trim`. */
module Prelude {

  /** Rust's `u8`: the type of a card's rank and suit. */
  type u8 = x: int | 0 <= x < 0x100

  /** Rust's `i32`: the type of a player's win counter. */
  type i32 = x: int | -0x8000_0000 <= x < 0x8000_0000

  datatype Option<T> = None | Some(value: T)

  /** `std::cmp::Ordering`. */
  datatype Ordering = Less | Equal | Greater {
    /** `Ordering::reverse`: the answer with the two operands swapped. */
    function Reverse(): Ordering {
      match this
      case Less => Greater
      case Equal => Equal
      case Greater => Less
    }
  }

  /** `Ord::cmp` on integers. */
  function CompareInt(a: int, b: int): Ordering {
    if a < b then Less else if a == b then Equal else Greater
  }

  function Max(a: int, b: int): int {
    if a < b then b else a
  }

  function Min(a: int, b: int): int {
    if a < b then a else b
  }

  /** `char::is_whitespace`: the characters with Unicode's White_Space property. */
  predicate IsWhitespace(c: char) {
    || ('\t' <= c <= '\r')
    || c == ' '
    || c == '\U{85}'
    || c == '\U{A0}'
    || c == '\U{1680}'
    || ('\U{2000}' <= c <= '\U{200A}')
    || c == '\U{2028}'
    || c == '\U{2029}'
    || c == '\U{202F}'
    || c == '\U{205F}'
    || c == '\U{3000}'
  }

  predicate AllWhitespace(s: string) {
    forall i | 0 <= i < |s| :: IsWhitespace(s[i])
  }

  /** The position of the first character at or after `i` that is not
      whitespace, or `|s|` if there is none. */
  function SkipStart(s: string, i: nat): (j: nat)
    requires i <= |s|
    ensures i <= j <= |s|
    decreases |s| - i
  {
    if i < |s| && IsWhitespace(s[i]) then SkipStart(s, i + 1) else i
  }

  /** The position just after the last character before `j` that is not
      whitespace, or 0 if there is none. */
  function SkipEnd(s: string, j: nat): (i: nat)
    requires j <= |s|
    ensures i <= j
  {
    if j > 0 && IsWhitespace(s[j - 1]) then SkipEnd(s, j - 1) else j
  }

  /** `str::trim_start`. */
  function TrimStart(s: string): string {
    s[SkipStart(s, 0)..]
  }

  /** `str::trim_end`. */
  function TrimEnd(s: string): string {
    s[..SkipEnd(s, |s|)]
  }

  /** `str::trim`: `trim_start`, then `trim_end`. */
  function Trim(s: string): (r: string)
    ensures |r| <= |s|
    ensures |s| > 0 && !IsWhitespace(s[0]) && !IsWhitespace(s[|s| - 1]) ==> r == s
  {
    TrimEnd(TrimStart(s))
  }

  /** `SkipStart` passes over whitespace only, and stops at a character that
      is not whitespace or at the end. */
  lemma {:induction false} SkipStartSkipsWhitespace(s: string, i: nat)
    requires i <= |s|
    ensures AllWhitespace(s[i..SkipStart(s, i)])
    ensures SkipStart(s, i) == |s| || !IsWhitespace(s[SkipStart(s, i)])
    decreases |s| - i
  {
    if i < |s| && IsWhitespace(s[i]) {
      SkipStartSkipsWhitespace(s, i + 1);
      assert s[i..SkipStart(s, i)] == [s[i]] + s[i + 1..SkipStart(s, i + 1)];
    }
  }

  /** `SkipEnd` passes back over whitespace only, and stops after a character
      that is not whitespace or at the start. */
  lemma {:induction false} SkipEndSkipsWhitespace(s: string, j: nat)
    requires j <= |s|
    ensures AllWhitespace(s[SkipEnd(s, j)..j])
    ensures SkipEnd(s, j) == 0 || !IsWhitespace(s[SkipEnd(s, j) - 1])
    decreases j
  {
    if j > 0 && IsWhitespace(s[j - 1]) {
      SkipEndSkipsWhitespace(s, j - 1);
      assert s[SkipEnd(s, j)..j] == s[SkipEnd(s, j - 1)..j - 1] + [s[j - 1]];
    }
  }

  /** Whitespace from `i` up to a character that is not whitespace (or the
      end) is exactly what `SkipStart` passes over. */
  lemma {:induction false} SkipStartStops(s: string, i: nat, j: nat)
    requires i <= j <= |s|
    requires forall k | i <= k < j :: IsWhitespace(s[k])
    requires j == |s| || !IsWhitespace(s[j])
    ensures SkipStart(s, i) == j
    decreases j - i
  {
    if i < j {
      SkipStartStops(s, i + 1, j);
    }
  }

  /** Whitespace back from `j` to just after a character that is not
      whitespace (or the start) is exactly what `SkipEnd` passes over. */
  lemma {:induction false} SkipEndStops(s: string, i: nat, j: nat)
    requires i <= j <= |s|
    requires forall k | i <= k < j :: IsWhitespace(s[k])
    requires i == 0 || !IsWhitespace(s[i - 1])
    ensures SkipEnd(s, j) == i
    decreases j - i
  {
    if i < j {
      SkipEndStops(s, i, j - 1);
    }
  }

  /** `r` is the part of `s` starting at `i` once whitespace is dropped from
      both ends. */
  predicate TrimmedAt(s: string, r: string, i: nat) {
    && i + |r| <= |s|
    && s[i..i + |r|] == r
    && AllWhitespace(s[..i])
    && AllWhitespace(s[i + |r|..])
    && (r == [] || (!IsWhitespace(r[0]) && !IsWhitespace(r[|r| - 1])))
  }

  /** `Trim` gives the slice of `s` left once whitespace is dropped from both
      ends. */
  lemma TrimDropsBothEnds(s: string)
    ensures exists i :: TrimmedAt(s, Trim(s), i)
  {
    var i := SkipStart(s, 0);
    var t := s[i..];
    var j := SkipEnd(t, |t|);
    var r := t[..j];
    assert Trim(s) == r;
    SkipStartSkipsWhitespace(s, 0);
    SkipEndSkipsWhitespace(t, |t|);
    assert r == s[i..i + j];
    assert s[i + j..] == t[j..] == t[j..|t|];
    assert r != [] ==> r[0] == s[i] && r[j - 1] == t[j - 1];
    assert TrimmedAt(s, r, i);
  }

  /** A line holding "q" with any whitespace around it (the newline `read_line`
      keeps, say) trims to exactly "q". */
  lemma TrimQuitLine(w1: string, w2: string)
    requires AllWhitespace(w1) && AllWhitespace(w2)
    ensures Trim(w1 + "q" + w2) == "q"
  {
    var s := w1 + "q" + w2;
    assert forall k | 0 <= k < |w1| :: s[k] == w1[k];
    SkipStartStops(s, 0, |w1|);
    var t := s[|w1|..];
    assert t == "q" + w2;
    SkipEndStops(t, 1, |t|);
  }
}
