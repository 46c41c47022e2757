/** The few PHP string functions the compiler and builder rely on. */
module Strings {
  import opened Wrappers

  /** `strtolower` on one character (ASCII letters only; no locale). */
  function LowerChar(c: char): char {
    if 'A' <= c <= 'Z' then (c as int + 32) as char else c
  }

  /** `strtolower`: lower-cases every ASCII letter and keeps everything else. */
  function Lower(s: string): (r: string)
    ensures |r| == |s|
    ensures forall i :: 0 <= i < |s| ==> r[i] == LowerChar(s[i])
  {
    if |s| == 0 then [] else [LowerChar(s[0])] + Lower(s[1..])
  }

  lemma {:induction false} LowerConcat(a: string, b: string)
    ensures Lower(a + b) == Lower(a) + Lower(b)
  {
    var l, r := Lower(a + b), Lower(a) + Lower(b);
    forall i | 0 <= i < |a + b|
      ensures l[i] == r[i]
    {
      if i < |a| {
        assert (a + b)[i] == a[i];
      } else {
        assert (a + b)[i] == b[i - |a|];
      }
    }
    assert l == r;
  }

  /** The first piece of `explode(c, s)`: everything before the first `c` (all of `s` if none). */
  function Before(s: string, c: char): (r: string)
    ensures |r| <= |s|
  {
    if |s| == 0 then s
    else if s[0] == c then []
    else [s[0]] + Before(s[1..], c)
  }

  /** Everything after the first `c` (empty if there is none). */
  function After(s: string, c: char): (r: string)
    ensures |r| <= |s|
  {
    if |s| == 0 then []
    else if s[0] == c then s[1..]
    else After(s[1..], c)
  }

  /** Splitting at the first separator and joining again gives the string back; the part before
      contains no separator. */
  lemma {:induction false} BeforeAfter(s: string, c: char)
    requires c in s
    ensures s == Before(s, c) + [c] + After(s, c)
    ensures c !in Before(s, c)
  {
    if s[0] != c {
      assert c in s[1..] by {
        var i :| 0 <= i < |s| && s[i] == c;
        assert s[1..][i - 1] == c;
      }
      BeforeAfter(s[1..], c);
      assert s == [s[0]] + s[1..];
    }
  }

  /** The pieces of `t + c + u`, for a `t` without separator, are `t` and `u`. */
  lemma {:induction false} SplitAtFirst(t: string, c: char, u: string)
    requires c !in t
    ensures Before(t + [c] + u, c) == t
    ensures After(t + [c] + u, c) == u
  {
    var s := t + [c] + u;
    if |t| == 0 {
      assert s == [c] + u;
    } else {
      assert s[0] == t[0];
      assert s[1..] == t[1..] + [c] + u;
      SplitAtFirst(t[1..], c, u);
      assert [t[0]] + t[1..] == t;
    }
  }

  /** `strpos(s, c)`: the position of the first occurrence, or `false` (here `None`). */
  function IndexOf(s: string, c: char): (r: Option<nat>)
    ensures r.None? <==> c !in s
    ensures r.Some? ==> r.value < |s| && s[r.value] == c && c !in s[..r.value]
  {
    if |s| == 0 then None
    else if s[0] == c then Some(0)
    else
      match IndexOf(s[1..], c)
      case None => None
      case Some(p) =>
        assert s[1..][..p] == s[1..p + 1];
        assert s[..p + 1] == [s[0]] + s[1..p + 1];
        Some(p + 1)
  }

  /** `implode(sep, parts)`. */
  function Join(parts: seq<string>, sep: string): string {
    if |parts| == 0 then ""
    else if |parts| == 1 then parts[0]
    else parts[0] + sep + Join(parts[1..], sep)
  }

  /** If two strings split at a separator with no separator after it, the splits agree. This
      identifies the two halves of an `implode('_', [boolean, type])` key. */
  lemma SeparatorSplit(x: string, s: string, y: string, t: string)
    requires '_' !in s && '_' !in t
    requires x + "_" + s == y + "_" + t
    ensures x == y && s == t
  {
    var k := x + "_" + s;
    var k' := y + "_" + t;
    assert k[|k| - 1 - |s|] == '_';
    assert k'[|k| - 1 - |t|] == '_';
    assert forall j :: |k| - |s| <= j < |k| ==> k[j] == s[j - (|k| - |s|)];
    assert forall j :: |k| - |t| <= j < |k| ==> k'[j] == t[j - (|k| - |t|)];
    assert forall j :: |k| - |s| <= j < |k| ==> k[j] != '_';
    assert forall j :: |k| - |t| <= j < |k| ==> k[j] != '_';
    assert |s| == |t|;
    assert x == k[..|x|];
    assert y == k'[..|y|];
    assert s == k[|x| + 1..];
    assert t == k'[|y| + 1..];
  }
}
