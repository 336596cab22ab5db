/**
  The string operations of the JavaScript platform that the interpreter
  relies on: `toLowerCase`, `trim`, `includes`, `startsWith`, `endsWith`
  and `split` on one separator character.
 */
module Text {

  /** `toLowerCase` on one character (ASCII letters only). */
  function LowerChar(c: char): (r: char)
    ensures 'A' <= c <= 'Z' ==> r as int == c as int + 32
    ensures !('A' <= c <= 'Z') ==> r == c
  {
    if 'A' <= c <= 'Z' then (c as int + 32) as char else c
  }

  function Lower(s: string): (r: string)
    ensures |r| == |s|
    ensures forall i :: 0 <= i < |s| ==> r[i] == LowerChar(s[i])
  {
    if s == [] then [] else [LowerChar(s[0])] + Lower(s[1..])
  }

  /** The characters `trim` removes (the common white space and line terminators). */
  predicate IsSpace(c: char)
  {
    c == ' ' || c == '\t' || c == '\n' || c == '\r' || c == '\U{000B}' || c == '\U{000C}'
    || c == '\U{00A0}' || c == '\U{FEFF}' || c == '\U{2028}' || c == '\U{2029}'
  }

  function TrimStart(s: string): (r: string)
    ensures |r| <= |s| && r == s[|s| - |r|..]
    ensures r == [] || !IsSpace(r[0])
    ensures forall i :: 0 <= i < |s| - |r| ==> IsSpace(s[i])
  {
    if s != [] && IsSpace(s[0]) then TrimStart(s[1..]) else s
  }

  function TrimEnd(s: string): (r: string)
    ensures |r| <= |s| && r == s[..|r|]
    ensures r == [] || !IsSpace(r[|r| - 1])
    ensures forall i :: |r| <= i < |s| ==> IsSpace(s[i])
  {
    if s != [] && IsSpace(s[|s| - 1]) then TrimEnd(s[..|s| - 1]) else s
  }

  /** `trim`: no white space is left at either end, and only white space was dropped. */
  function Trim(s: string): (r: string)
    ensures r == [] || (!IsSpace(r[0]) && !IsSpace(r[|r| - 1]))
    ensures exists i :: OccursAt(s, r, i)
  {
    var t := TrimStart(s);
    var r := TrimEnd(t);
    assert s[|s| - |t|..][..|r|] == s[|s| - |t|..|s| - |t| + |r|];
    assert OccursAt(s, r, |s| - |t|);
    r
  }

  /** The comparison form used by the condition operators: lower-cased, trimmed. */
  function Normalize(s: string): string
  {
    Trim(Lower(s))
  }

  /** `b` occurs in `a` at position `i`. */
  predicate OccursAt(a: string, b: string, i: int)
  {
    0 <= i && i + |b| <= |a| && a[i..i + |b|] == b
  }

  /** `a.startsWith(b)` */
  predicate StartsWith(a: string, b: string)
  {
    |b| <= |a| && a[..|b|] == b
  }

  /** `a.endsWith(b)` */
  predicate EndsWith(a: string, b: string)
  {
    |b| <= |a| && a[|a| - |b|..] == b
  }

  /** `a.includes(b)`, searching from the left. */
  function Includes(a: string, b: string): (r: bool)
    ensures r <==> exists i :: OccursAt(a, b, i)
    decreases |a|
  {
    if StartsWith(a, b) then
      assert OccursAt(a, b, 0);
      true
    else if a == [] then
      assert forall i :: !OccursAt(a, b, i);
      false
    else
      var r := Includes(a[1..], b);
      assert forall i :: OccursAt(a[1..], b, i) <==> OccursAt(a, b, i + 1) by {
        forall i ensures OccursAt(a[1..], b, i) <==> OccursAt(a, b, i + 1) {
          if 0 <= i && i + |b| <= |a| - 1 {
            assert a[1..][i..i + |b|] == a[i + 1..i + 1 + |b|];
          }
        }
      }
      assert !OccursAt(a, b, 0);
      assert (exists i :: OccursAt(a, b, i)) ==> exists i :: OccursAt(a[1..], b, i) by {
        if exists i :: OccursAt(a, b, i) {
          var i :| OccursAt(a, b, i);
          assert i >= 1;
          assert OccursAt(a[1..], b, i - 1);
        }
      }
      r
  }

  /** `s.indexOf(c)`, or -1. */
  function IndexOf(s: string, c: char): (r: int)
    ensures -1 <= r < |s|
    ensures r == -1 <==> c !in s
    ensures r >= 0 ==> s[r] == c && c !in s[..r]
  {
    if s == [] then -1
    else if s[0] == c then 0
    else
      var k := IndexOf(s[1..], c);
      assert s == [s[0]] + s[1..];
      if k == -1 then -1 else k + 1
  }

  /** `s.split(c)` for a one-character separator. */
  function Split(s: string, c: char): (parts: seq<string>)
    ensures |parts| >= 1
    ensures forall k :: 0 <= k < |parts| ==> c !in parts[k]
    ensures c !in s ==> parts == [s]
    decreases |s|
  {
    var i := IndexOf(s, c);
    if i == -1 then [s] else [s[..i]] + Split(s[i + 1..], c)
  }

  /** Splitting at a first separator peels off the text before it. */
  lemma SplitAtFirst(pre: string, post: string, c: char)
    requires c !in pre
    ensures Split(pre + [c] + post, c) == [pre] + Split(post, c)
  {
    var s := pre + [c] + post;
    var i := IndexOf(s, c);
    assert s[|pre|] == c;
    assert s[..|pre|] == pre;
    assert i == |pre|;
    assert s[i + 1..] == post;
  }
}
