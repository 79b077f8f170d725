/**
 * The JavaScript string operations the core relies on, with the semantics
 * of `String.prototype.indexOf`, `slice`, `split`, `trim`, `toUpperCase`
 * and `toLowerCase`, and of a string's `length`, restricted to what the core needs.
 */
module JsStrings {

  /**
   * `s.length`: JavaScript counts UTF-16 code units, so a character above
   * U+FFFF (a surrogate pair) counts two.
   */
  function Utf16Length(s: string): nat
  {
    if s == [] then 0 else (if s[0] as int > 0xFFFF then 2 else 1) + Utf16Length(s[1..])
  }

  /** The length lies between the character count and twice that. */
  lemma {:induction false} Utf16LengthBounds(s: string)
    ensures |s| <= Utf16Length(s) <= 2 * |s|
  {
    if s != [] {
      Utf16LengthBounds(s[1..]);
    }
  }

  /** The length is the character count exactly when no character is above U+FFFF. */
  lemma {:induction false} Utf16LengthPlain(s: string)
    ensures Utf16Length(s) == |s| <==> forall i | 0 <= i < |s| :: s[i] as int <= 0xFFFF
  {
    if s != [] {
      Utf16LengthPlain(s[1..]);
      Utf16LengthBounds(s[1..]);
      assert forall i | 1 <= i < |s| :: s[i] == s[1..][i - 1];
    }
  }

  /** The length of a concatenation is the sum of the lengths. */
  lemma {:induction false} Utf16Append(a: string, b: string)
    ensures Utf16Length(a + b) == Utf16Length(a) + Utf16Length(b)
  {
    if a == [] {
      assert a + b == b;
    } else {
      assert (a + b)[0] == a[0] && (a + b)[1..] == a[1..] + b;
      Utf16Append(a[1..], b);
    }
  }

  /** `p` occurs in `s` starting at index `k`. */
  predicate OccursAt(s: string, p: string, k: int)
  {
    0 <= k && k + |p| <= |s| && s[k..k + |p|] == p
  }

  /** `s.indexOf(p, i)`: the first occurrence at or after `i`, or -1. */
  function IndexOfFrom(s: string, p: string, i: nat): (r: int)
    requires i <= |s|
    ensures r == -1 || (i <= r && OccursAt(s, p, r))
    ensures r == -1 ==> forall k :: i <= k <= |s| ==> !OccursAt(s, p, k)
    ensures r >= 0 ==> forall k :: i <= k < r ==> !OccursAt(s, p, k)
    decreases |s| - i
  {
    if OccursAt(s, p, i) then i
    else if i + |p| >= |s| then
      assert forall k :: i < k <= |s| ==> !OccursAt(s, p, k);
      -1
    else IndexOfFrom(s, p, i + 1)
  }

  /** `s.indexOf(p)`. */
  function IndexOf(s: string, p: string): (r: int)
    ensures r == -1 || OccursAt(s, p, r)
    ensures r == -1 <==> forall k :: 0 <= k <= |s| ==> !OccursAt(s, p, k)
    ensures forall k :: 0 <= k < r ==> !OccursAt(s, p, k)
  {
    IndexOfFrom(s, p, 0)
  }

  predicate Contains(s: string, p: string)
  {
    IndexOf(s, p) >= 0
  }

  /** `s.indexOf(c)` for a one-character argument. */
  function IndexOfChar(s: string, c: char): (r: int)
    ensures -1 <= r < |s|
    ensures r >= 0 ==> s[r] == c && c !in s[..r]
    ensures r == -1 <==> c !in s
  {
    if s == [] then -1
    else if s[0] == c then 0
    else
      var k := IndexOfChar(s[1..], c);
      if k < 0 then -1
      else
        assert s[..k + 1] == [s[0]] + s[1..][..k];
        k + 1
  }

  /** `s.slice(start, end)` for non-negative bounds: clamped, and empty when end <= start. */
  function JsSlice(s: string, start: nat, end: nat): (r: string)
    ensures start <= end <= |s| ==> r == s[start..end]
    ensures end <= start ==> r == ""
  {
    var e := if end < |s| then end else |s|;
    var b := if start < |s| then start else |s|;
    if e <= b then "" else s[b..e]
  }

  /** `s.slice(start)` for an integer start >= -1 (negative counts from the end). */
  function JsSliceFrom(s: string, start: int): (r: string)
    requires start >= -1
    ensures 0 <= start <= |s| ==> r == s[start..]
  {
    if start < 0 then (if |s| == 0 then "" else s[|s| - 1..])
    else if start <= |s| then s[start..]
    else ""
  }

  /** `s.split(c)` for a one-character separator. */
  function Split(s: string, c: char): (parts: seq<string>)
    ensures |parts| >= 1
    ensures forall i :: 0 <= i < |parts| ==> c !in parts[i]
    decreases |s|
  {
    var k := IndexOfChar(s, c);
    if k < 0 then [s]
    else
      var rest := Split(s[k + 1..], c);
      assert forall i | 1 <= i < 1 + |rest| :: ([s[..k]] + rest)[i] == rest[i - 1];
      [s[..k]] + rest
  }

  /** The inverse of `Split`: the parts joined with the separator. */
  function Join(parts: seq<string>, c: char): string
    requires |parts| >= 1
  {
    if |parts| == 1 then parts[0] else parts[0] + [c] + Join(parts[1..], c)
  }

  /** Splitting loses nothing: joining the parts on the separator restores the text. */
  lemma {:induction false} JoinSplit(s: string, c: char)
    ensures Join(Split(s, c), c) == s
    decreases |s|
  {
    var k := IndexOfChar(s, c);
    if k < 0 {
      assert Split(s, c) == [s];
    } else {
      var rest := s[k + 1..];
      var tail := Split(rest, c);
      assert Split(s, c) == [s[..k]] + tail;
      JoinSplit(rest, c);
      JoinCons(s[..k], tail, c);
      assert s[k] == c;
      SplitAround(s, k);
    }
  }

  lemma SplitAround(s: string, k: nat)
    requires k < |s|
    ensures s == s[..k] + [s[k]] + s[k + 1..]
  {
  }

  lemma JoinCons(p: string, tail: seq<string>, c: char)
    requires |tail| >= 1
    ensures Join([p] + tail, c) == p + [c] + Join(tail, c)
  {
    assert ([p] + tail)[1..] == tail;
  }

  /**
   * The characters `trim` removes: ECMAScript's white space (tab, vertical
   * tab, form feed, space, no-break space, the byte order mark and the
   * other Unicode space separators) and its line terminators.
   */
  predicate IsSpace(c: char)
  {
    || c == '\t' || c == '\U{B}' || c == '\U{C}' || c == ' ' || c == '\U{A0}' || c == '\U{FEFF}'
    || c == '\U{1680}' || ('\U{2000}' <= c <= '\U{200A}') || c == '\U{202F}' || c == '\U{205F}' || c == '\U{3000}'
    || c == '\n' || c == '\r' || c == '\U{2028}' || c == '\U{2029}'
  }

  function TrimStart(s: string): (r: string)
    ensures |r| <= |s| && r == s[|s| - |r|..]
    ensures forall i :: 0 <= i < |s| - |r| ==> IsSpace(s[i])
    ensures r == [] || !IsSpace(r[0])
  {
    if s == [] || !IsSpace(s[0]) then s else TrimStart(s[1..])
  }

  function TrimEnd(s: string): (r: string)
    ensures |r| <= |s| && r == s[..|r|]
    ensures forall i :: |r| <= i < |s| ==> IsSpace(s[i])
    ensures r == [] || !IsSpace(r[|r| - 1])
  {
    if s == [] || !IsSpace(s[|s| - 1]) then s else TrimEnd(s[..|s| - 1])
  }

  /** `s.trim()`. */
  function Trim(s: string): string
  {
    TrimEnd(TrimStart(s))
  }

  /** A text without space at either end is its own trim. */
  lemma TrimPlain(s: string)
    requires s != [] ==> !IsSpace(s[0]) && !IsSpace(s[|s| - 1])
    ensures Trim(s) == s
  {
    assert TrimStart(s) == s;
  }

  /** A text without the separator splits into itself alone. */
  lemma SplitWithout(s: string, c: char)
    requires c !in s
    ensures Split(s, c) == [s]
  {
  }

  /** A pattern whose first character is absent from the text does not occur in it. */
  lemma AbsentLead(s: string, p: string)
    requires p != [] && p[0] !in s
    ensures !Contains(s, p)
  {
    forall k | 0 <= k <= |s|
      ensures !OccursAt(s, p, k)
    {
    }
  }

  function UpperChar(c: char): char
  {
    if 'a' <= c <= 'z' then (c as int - 32) as char else c
  }

  function LowerChar(c: char): char
  {
    if 'A' <= c <= 'Z' then (c as int + 32) as char else c
  }

  /** `s.toUpperCase()` on ASCII letters; other letters are left as they are. */
  function ToUpper(s: string): (r: string)
    ensures |r| == |s|
  {
    seq(|s|, i requires 0 <= i < |s| => UpperChar(s[i]))
  }

  /** `s.toLowerCase()` on ASCII letters; other letters are left as they are. */
  function ToLower(s: string): (r: string)
    ensures |r| == |s|
  {
    seq(|s|, i requires 0 <= i < |s| => LowerChar(s[i]))
  }

  /** Concatenation of a list of strings, in order. */
  function Concat(parts: seq<string>): string
  {
    if parts == [] then "" else parts[0] + Concat(parts[1..])
  }

  lemma {:induction false} ConcatAppend(parts: seq<string>, p: string)
    ensures Concat(parts + [p]) == Concat(parts) + p
  {
    if parts != [] {
      assert (parts + [p])[1..] == parts[1..] + [p];
      ConcatAppend(parts[1..], p);
    }
  }
}
