/**
 * The chip clean-up init runs once per bar: each chip's text content is
 * trimmed and written back as plain text, and its `fire` class is removed.
 * A chip is its text content and its class list.
 */
module ChipText {

  datatype Chip = Chip(text: string, classes: set<string>)

  const FireClass: string := "fire"

  /**
   * The characters `String.prototype.trim` strips: the ECMAScript WhiteSpace
   * characters (TAB, VT, FF, ZWNBSP and the Unicode space separators) and the
   * LineTerminator characters (LF, CR, LS, PS).
   */
  predicate IsTrimmable(c: char) {
    c == '\t' || c == '\U{000B}' || c == '\U{000C}' || c == '\U{FEFF}' ||
    c == ' ' || c == '\U{00A0}' || c == '\U{1680}' ||
    ('\U{2000}' <= c <= '\U{200A}') ||
    c == '\U{202F}' || c == '\U{205F}' || c == '\U{3000}' ||
    c == '\n' || c == '\r' || c == '\U{2028}' || c == '\U{2029}'
  }

  /** The index of the first character at or after `i` that is not trimmable, or `|s|`. */
  function FirstKept(s: string, i: nat): (j: nat)
    requires i <= |s|
    ensures i <= j <= |s|
    ensures forall k :: i <= k < j ==> IsTrimmable(s[k])
    ensures j < |s| ==> !IsTrimmable(s[j])
    decreases |s| - i
  {
    if i < |s| && IsTrimmable(s[i]) then FirstKept(s, i + 1) else i
  }

  /** The index just past the last character before `j` that is not trimmable, or 0. */
  function LastKept(s: string, j: nat): (e: nat)
    requires j <= |s|
    ensures e <= j
    ensures forall k :: e <= k < j ==> IsTrimmable(s[k])
    ensures e > 0 ==> !IsTrimmable(s[e - 1])
  {
    if j > 0 && IsTrimmable(s[j - 1]) then LastKept(s, j - 1) else j
  }

  /** The text with its leading trimmable characters removed. */
  function TrimStart(s: string): (t: string)
    ensures |t| <= |s| && t == s[|s| - |t|..]
    ensures t == [] || !IsTrimmable(t[0])
    ensures forall k :: 0 <= k < |s| - |t| ==> IsTrimmable(s[k])
  {
    s[FirstKept(s, 0)..]
  }

  /** The text with its trailing trimmable characters removed. */
  function TrimEnd(s: string): (t: string)
    ensures |t| <= |s| && t == s[..|t|]
    ensures t == [] || !IsTrimmable(t[|t| - 1])
    ensures forall k :: |t| <= k < |s| ==> IsTrimmable(s[k])
  {
    s[..LastKept(s, |s|)]
  }

  /** `t` is `s` cut at index `a`, with only trimmable characters cut away on either side. */
  ghost predicate CutAt(s: string, t: string, a: int) {
    0 <= a <= |s| - |t| && t == s[a..a + |t|] &&
    (forall k :: 0 <= k < a ==> IsTrimmable(s[k])) &&
    (forall k :: a + |t| <= k < |s| ==> IsTrimmable(s[k]))
  }

  /**
   * `trim()`: the text cut at some index `a` to its trimmed length, where only
   * trimmable characters lie before the cut and after its end, and the result
   * neither starts nor ends with one.
   */
  function Trim(s: string): (t: string)
    ensures exists a :: CutAt(s, t, a)
    ensures t == [] || (!IsTrimmable(t[0]) && !IsTrimmable(t[|t| - 1]))
  {
    var u := TrimStart(s);
    var t := TrimEnd(u);
    CutOfSuffixThenPrefix(s, u, t);
    assert t != [] ==> t[0] == u[0];
    t
  }

  /**
   * Cutting trimmable characters off the front of a text, then off the back of
   * what remains, cuts the text at the point where the front cut ended.
   */
  lemma CutOfSuffixThenPrefix(s: string, u: string, t: string)
    requires |u| <= |s| && u == s[|s| - |u|..]
    requires forall k :: 0 <= k < |s| - |u| ==> IsTrimmable(s[k])
    requires |t| <= |u| && t == u[..|t|]
    requires forall k :: |t| <= k < |u| ==> IsTrimmable(u[k])
    ensures CutAt(s, t, |s| - |u|)
  {
  }

  /** A text that neither starts nor ends with a trimmable character is its own trim. */
  lemma TrimFixed(s: string)
    requires s == [] || (!IsTrimmable(s[0]) && !IsTrimmable(s[|s| - 1]))
    ensures Trim(s) == s
  {
  }

  /** Trimming twice is trimming once. */
  lemma TrimIdempotent(s: string)
    ensures Trim(Trim(s)) == Trim(s)
  {
    TrimFixed(Trim(s));
  }

  /** One chip's clean-up: trimmed text, no `fire` class. */
  function NormalizeChip(c: Chip): (d: Chip)
    ensures d.text == Trim(c.text)
    ensures FireClass !in d.classes
    ensures d.classes + {FireClass} == c.classes + {FireClass}
  {
    RemoveThenAdd(c.classes, FireClass);
    Chip(Trim(c.text), c.classes - {FireClass})
  }

  /** Removing a class and adding it back is adding it. */
  lemma RemoveThenAdd(classes: set<string>, cls: string)
    ensures (classes - {cls}) + {cls} == classes + {cls}
  {
  }

  /** Cleaning a chip up twice is cleaning it up once. */
  lemma NormalizeChipIdempotent(c: Chip)
    ensures NormalizeChip(NormalizeChip(c)) == NormalizeChip(c)
  {
    TrimIdempotent(c.text);
  }

  /** `forEach` over an array whose callback replaces each element in place by `f` of it. */
  method ForEachInPlace<T>(a: array<T>, f: T -> T)
    modifies a
    ensures forall i :: 0 <= i < a.Length ==> a[i] == f(old(a[i]))
  {
    ghost var before := a[..];
    var i := 0;
    while i < a.Length
      invariant 0 <= i <= a.Length
      invariant forall k :: 0 <= k < i ==> a[k] == f(before[k])
      invariant a[i..] == before[i..]
    {
      assert a[i] == before[i];
      a[i] := f(a[i]);
      i := i + 1;
    }
  }

  /** The `forEach` over the bar's chips: every chip is cleaned up in place. */
  method NormalizeChips(chips: array<Chip>)
    modifies chips
    ensures forall i :: 0 <= i < chips.Length ==> chips[i] == NormalizeChip(old(chips[i]))
  {
    ForEachInPlace(chips, NormalizeChip);
  }
}
