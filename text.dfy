/** The string operations the popup relies on, as JavaScript defines them. */
module Text {

  /** The characters JavaScript's `trim` removes: WhiteSpace (tab, vertical
      tab, form feed, space, no-break space, byte order mark and the space
      separators) and LineTerminator (line feed, carriage return, line and
      paragraph separators). */
  const TrimSpaces: set<char> := {
    '\t', '\n', '\U{000B}', '\U{000C}', '\r', ' ', '\U{00A0}', '\U{1680}',
    '\U{2000}', '\U{2001}', '\U{2002}', '\U{2003}', '\U{2004}', '\U{2005}',
    '\U{2006}', '\U{2007}', '\U{2008}', '\U{2009}', '\U{200A}',
    '\U{2028}', '\U{2029}', '\U{202F}', '\U{205F}', '\U{3000}', '\U{FEFF}'
  }

  predicate IsTrimSpace(c: char)
  {
    c in TrimSpaces
  }

  /** The end of the run of trim-space in `s` that starts at index `i`. */
  function SpaceRunEnd(s: string, i: nat): (n: nat)
    requires i <= |s|
    ensures i <= n <= |s|
    ensures forall k :: i <= k < n ==> IsTrimSpace(s[k])
    ensures n < |s| ==> !IsTrimSpace(s[n])
    decreases |s| - i
  {
    if i < |s| && IsTrimSpace(s[i]) then SpaceRunEnd(s, i + 1) else i
  }

  /** The start of the run of trim-space in `s` that ends at index `j`,
      looking no further back than index `lo`. */
  function SpaceRunStart(s: string, lo: nat, j: nat): (n: nat)
    requires lo <= j <= |s|
    ensures lo <= n <= j
    ensures forall k :: n <= k < j ==> IsTrimSpace(s[k])
    ensures lo < n ==> !IsTrimSpace(s[n - 1])
    decreases j
  {
    if lo < j && IsTrimSpace(s[j - 1]) then SpaceRunStart(s, lo, j - 1) else j
  }

  /** Every character of `s` is trim-space (true of the empty string). */
  predicate Blank(s: string)
  {
    forall k :: 0 <= k < |s| ==> IsTrimSpace(s[k])
  }

  /** `r` sits in `s` at index `i`, with only trim-space before and after it. */
  predicate PaddedAt(s: string, r: string, i: int)
  {
    && 0 <= i <= |s| - |r| && r == s[i..i + |r|]
    && (forall k :: 0 <= k < i ==> IsTrimSpace(s[k]))
    && (forall k :: i + |r| <= k < |s| ==> IsTrimSpace(s[k]))
  }

  /** JavaScript's `s.trim()`: drop the leading run of trim-space, then the
      trailing one. */
  function Trim(s: string): (r: string)
  {
    var start := SpaceRunEnd(s, 0);
    s[start..SpaceRunStart(s, start, |s|)]
  }

  /** The trimmed string is the part of `s` between a leading and a trailing
      run of trim-space, and neither starts nor ends with trim-space. */
  lemma TrimPadded(s: string)
    ensures exists i :: PaddedAt(s, Trim(s), i)
    ensures var r := Trim(s); r != [] ==> !IsTrimSpace(r[0]) && !IsTrimSpace(r[|r| - 1])
  {
    var start := SpaceRunEnd(s, 0);
    var end := SpaceRunStart(s, start, |s|);
    assert PaddedAt(s, Trim(s), start);
  }

  /** Trimming leaves nothing exactly when the string is all trim-space. */
  lemma TrimEmptyIffBlank(s: string)
    ensures Trim(s) == [] <==> Blank(s)
  {
    var start := SpaceRunEnd(s, 0);
    var end := SpaceRunStart(s, start, |s|);
    if start < |s| {
      assert !IsTrimSpace(s[start]);
      assert start < end;
    }
  }

  /** JavaScript's `toLowerCase`, restricted to ASCII letters. */
  function LowerChar(c: char): char
  {
    if 'A' <= c <= 'Z' then (c as int + 32) as char else c
  }

  function Lower(s: string): (r: string)
    ensures |r| == |s|
    ensures forall k :: 0 <= k < |s| ==> r[k] == LowerChar(s[k])
  {
    if s == [] then [] else [LowerChar(s[0])] + Lower(s[1..])
  }

  predicate HasPrefix(s: string, p: string)
  {
    |p| <= |s| && s[..|p|] == p
  }

  /** `t` is a strictly shorter tail of `s`. */
  predicate ProperSuffix(t: string, s: string)
  {
    |t| < |s| && t == s[|s| - |t|..]
  }

  /** `sub` occurs in `s` starting at index `i`. */
  predicate OccursAt(s: string, sub: string, i: int)
  {
    0 <= i <= |s| - |sub| && s[i..i + |sub|] == sub
  }

  /** JavaScript's `s.includes(sub)`: `sub` occurs somewhere in `s`. */
  function Contains(s: string, sub: string): (r: bool)
    ensures r <==> exists i :: OccursAt(s, sub, i)
    decreases |s|
  {
    if HasPrefix(s, sub) then
      assert OccursAt(s, sub, 0);
      true
    else if s == [] then
      false
    else
      var r := Contains(s[1..], sub);
      assert forall i :: OccursAt(s[1..], sub, i) <==> OccursAt(s, sub, i + 1);
      assert !OccursAt(s, sub, 0);
      assert forall i :: OccursAt(s, sub, i) ==> OccursAt(s[1..], sub, i - 1);
      r
  }

  /** JavaScript's `s.split(sep)` for a one-character separator: the maximal
      runs between separators, empty runs included, so never an empty list. */
  function Split(s: string, sep: char): (parts: seq<string>)
    ensures |parts| >= 1
    decreases |s|
  {
    if s == [] then [""]
    else
      var rest := Split(s[1..], sep);
      if s[0] == sep then [""] + rest
      else [[s[0]] + rest[0]] + rest[1..]
  }

  /** No part of a split contains the separator. */
  lemma {:induction false} SplitPartsLackSeparator(s: string, sep: char, k: nat)
    requires k < |Split(s, sep)|
    ensures sep !in Split(s, sep)[k]
    decreases |s|
  {
    if s != [] {
      var rest := Split(s[1..], sep);
      if s[0] == sep {
        if k > 0 {
          SplitPartsLackSeparator(s[1..], sep, k - 1);
        }
      } else if k == 0 {
        SplitPartsLackSeparator(s[1..], sep, 0);
      } else {
        SplitPartsLackSeparator(s[1..], sep, k);
      }
    }
  }

  /** JavaScript's `parts.join(sep)`. */
  function Join(parts: seq<string>, sep: char): (s: string)
  {
    if parts == [] then ""
    else if |parts| == 1 then parts[0]
    else parts[0] + [sep] + Join(parts[1..], sep)
  }

  /** Splitting and joining on the same separator gives back the string. */
  lemma {:induction false} JoinSplit(s: string, sep: char)
    ensures Join(Split(s, sep), sep) == s
    decreases |s|
  {
    if s != [] {
      var rest := Split(s[1..], sep);
      JoinSplit(s[1..], sep);
      if s[0] == sep {
        assert Split(s, sep) == [""] + rest;
      } else {
        var parts := Split(s, sep);
        assert parts == [[s[0]] + rest[0]] + rest[1..];
        if |rest| == 1 {
          assert Join(parts, sep) == [s[0]] + rest[0];
        } else {
          assert parts[1..] == rest[1..];
          assert Join(rest, sep) == rest[0] + [sep] + Join(rest[1..], sep);
        }
      }
    }
  }

  /** Joining a list equals joining its first `k` items, the separator, and
      joining the rest. */
  lemma {:induction false} JoinAt(parts: seq<string>, sep: char, k: nat)
    requires 0 < k < |parts|
    ensures Join(parts, sep) == Join(parts[..k], sep) + [sep] + Join(parts[k..], sep)
  {
    if k > 1 {
      JoinAt(parts[1..], sep, k - 1);
      assert parts[1..][..k - 1] == parts[..k][1..];
      assert parts[1..][k - 1..] == parts[k..];
    } else {
      assert parts[..1] == [parts[0]];
    }
  }

  /** The popup's `truncateText`: a text that fits is kept, a longer one is cut
      to `maxLength` characters followed by "...". */
  function Truncate(text: string, maxLength: nat): (r: string)
    ensures |text| <= maxLength ==> r == text
    ensures |text| > maxLength ==> |r| == maxLength + 3 && HasPrefix(text, r[..maxLength]) && r[maxLength..] == "..."
    ensures |r| <= maxLength + 3
  {
    if |text| <= maxLength then text else text[..maxLength] + "..."
  }
}
