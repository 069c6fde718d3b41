/**
 * The JavaScript string operations the modelled code uses: `trim`,
 * `toLowerCase`, `includes`, a global `replace` with an empty replacement and
 * the second field of `split`.
 */
module JsString {
  import opened Wrappers

  /** White space and line terminators as `trim` and the regular-expression class `\s` see them. */
  predicate IsSpace(c: char)
  {
    || c == ' ' || c == '\t' || c == '\n' || c == '\r'
    || c == '\U{000B}' || c == '\U{000C}' || c == '\U{00A0}' || c == '\U{FEFF}'
    || c == '\U{1680}' || ('\U{2000}' <= c <= '\U{200A}')
    || c == '\U{2028}' || c == '\U{2029}' || c == '\U{202F}' || c == '\U{205F}' || c == '\U{3000}'
  }

  predicate NoSpace(s: string)
  {
    forall k :: 0 <= k < |s| ==> !IsSpace(s[k])
  }

  /** `trimStart`: drops the white space at the front and keeps the rest. */
  function TrimStart(s: string): (r: string)
    ensures |r| <= |s| && r == s[|s| - |r|..]
    ensures forall k :: 0 <= k < |s| - |r| ==> IsSpace(s[k])
    ensures r != [] ==> !IsSpace(r[0])
  {
    if s != [] && IsSpace(s[0]) then TrimStart(s[1..]) else s
  }

  /** `trimEnd`: drops the white space at the back and keeps the rest. */
  function TrimEnd(s: string): (r: string)
    ensures |r| <= |s| && r == s[..|r|]
    ensures forall k :: |r| <= k < |s| ==> IsSpace(s[k])
    ensures r != [] ==> !IsSpace(r[|r| - 1])
  {
    if s != [] && IsSpace(s[|s| - 1]) then TrimEnd(s[..|s| - 1]) else s
  }

  /** `trim`: the longest slice of s that neither starts nor ends with white space. */
  function Trim(s: string): (r: string)
    ensures exists i, j ::
              && 0 <= i <= j <= |s| && r == s[i..j]
              && (forall k :: 0 <= k < i ==> IsSpace(s[k]))
              && (forall k :: j <= k < |s| ==> IsSpace(s[k]))
    ensures r != [] ==> !IsSpace(r[0]) && !IsSpace(r[|r| - 1])
  {
    var t := TrimStart(s);
    var r := TrimEnd(t);
    var i := |s| - |t|;
    assert r == s[i..i + |r|];
    r
  }

  /** A string that starts with a character other than white space is left alone by `trimStart`. */
  lemma TrimStartKeepsNonSpace(s: string)
    requires s != [] ==> !IsSpace(s[0])
    ensures TrimStart(s) == s
  {
  }

  /** `trim` leaves a string without white space unchanged. */
  lemma {:induction false} TrimNoSpace(s: string)
    requires NoSpace(s)
    ensures Trim(s) == s
  {
    assert TrimStart(s) == s;
    if s != [] {
      assert TrimEnd(s) == s;
    }
  }

  /** `toLowerCase`, restricted to the ASCII letters. */
  function LowerChar(c: char): char
  {
    if 'A' <= c <= 'Z' then (c as int - 'A' as int + 'a' as int) as char else c
  }

  function ToLower(s: string): string
  {
    seq(|s|, k requires 0 <= k < |s| => LowerChar(s[k]))
  }

  /** needle occurs in hay starting at position i. */
  predicate OccursAt(hay: string, needle: string, i: int)
  {
    0 <= i <= |hay| - |needle| && hay[i..i + |needle|] == needle
  }

  /** `hay.includes(needle)`: needle occurs at some position of hay. */
  predicate Includes(hay: string, needle: string)
  {
    exists i :: 0 <= i <= |hay| - |needle| && OccursAt(hay, needle, i)
  }

  /** Every string includes the empty string. */
  lemma IncludesEmpty(hay: string)
    ensures Includes(hay, "")
  {
    assert OccursAt(hay, "", 0);
  }

  /** `s.replace(/pat/g, "")`: delete the occurrences of pat met scanning left to right. */
  function RemoveAll(s: string, pat: string): string
    requires pat != []
  {
    if |s| < |pat| then s
    else if s[..|pat|] == pat then RemoveAll(s[|pat|..], pat)
    else [s[0]] + RemoveAll(s[1..], pat)
  }

  /** When the first character of pat never occurs in s, nothing is removed. */
  lemma {:induction false} RemoveAllWithoutStart(s: string, pat: string)
    requires pat != [] && pat[0] !in s
    ensures RemoveAll(s, pat) == s
  {
    if |s| >= |pat| {
      assert s[..|pat|] != pat by { assert s[0] in s; }
      RemoveAllWithoutStart(s[1..], pat);
      assert [s[0]] + s[1..] == s;
    }
  }

  /** Text before which the pattern cannot start passes through the removal untouched. */
  lemma {:induction false} RemoveAllKeepsPrefix(s: string, t: string, pat: string)
    requires pat != [] && pat[0] !in s
    ensures RemoveAll(s + t, pat) == s + RemoveAll(t, pat)
    decreases |s|
  {
    if s != [] {
      var st := s + t;
      if |st| < |pat| {
        assert RemoveAll(t, pat) == t;
      } else {
        assert st[..|pat|][0] == s[0];
        assert s[0] in s;
        assert st[1..] == s[1..] + t;
        RemoveAllKeepsPrefix(s[1..], t, pat);
        assert [s[0]] + s[1..] == s;
      }
    } else {
      assert s + t == t;
    }
  }

  /** A string that does not include the pattern is left as it is. */
  lemma {:induction false} RemoveAllAbsent(s: string, pat: string)
    requires pat != [] && !Includes(s, pat)
    ensures RemoveAll(s, pat) == s
    decreases |s|
  {
    if |s| >= |pat| {
      assert !OccursAt(s, pat, 0);
      SliceExcludes(s, pat, 1, |s|);
      assert s[1..|s|] == s[1..];
      RemoveAllAbsent(s[1..], pat);
      assert [s[0]] + s[1..] == s;
    }
  }

  /** A slice of a string that does not include pat does not include it either. */
  lemma SliceExcludes(s: string, pat: string, i: int, j: int)
    requires 0 <= i <= j <= |s| && !Includes(s, pat)
    ensures !Includes(s[i..j], pat)
  {
    forall k | 0 <= k <= (j - i) - |pat|
      ensures !OccursAt(s[i..j], pat, k)
    {
      assert !OccursAt(s, pat, i + k);
      var inner, outer := s[i..j][k..k + |pat|], s[i + k..i + k + |pat|];
      forall m | 0 <= m < |pat| ensures inner[m] == outer[m] { }
      assert inner == outer;
    }
  }

  // ---------------------------------------------------------------------
  // Removing every "```" leaves no "```" behind
  // ---------------------------------------------------------------------

  const Fence: string := "```"

  /** A result of the removal that starts with a backtick comes from a string that does. */
  lemma {:induction false} FenceRemovalKeepsFirst(t: string)
    ensures RemoveAll(t, Fence) != [] && RemoveAll(t, Fence)[0] == '`' ==> t != [] && t[0] == '`'
  {
    if |t| >= 3 && t[..3] == Fence {
      assert t[0] == t[..3][0];
    }
  }

  /** A result of the removal that starts with two backticks comes from a string that does. */
  lemma {:induction false} FenceRemovalKeepsSecond(t: string)
    ensures (|RemoveAll(t, Fence)| >= 2 && RemoveAll(t, Fence)[0] == '`' && RemoveAll(t, Fence)[1] == '`')
            ==> |t| >= 2 && t[0] == '`' && t[1] == '`'
  {
    if |t| >= 3 && t[..3] == Fence {
      assert t[0] == t[..3][0] && t[1] == t[..3][1];
    } else if |t| >= 3 {
      var rest := RemoveAll(t[1..], Fence);
      assert RemoveAll(t, Fence) == [t[0]] + rest;
      FenceRemovalKeepsFirst(t[1..]);
    }
  }

  /** After deleting every "```" from left to right, no "```" is left. */
  lemma {:induction false} NoFenceAfterRemoval(s: string)
    ensures !Includes(RemoveAll(s, Fence), Fence)
    decreases |s|
  {
    if |s| < 3 {
    } else if s[..3] == Fence {
      NoFenceAfterRemoval(s[3..]);
    } else {
      var rest := RemoveAll(s[1..], Fence);
      var r := [s[0]] + rest;
      assert RemoveAll(s, Fence) == r;
      NoFenceAfterRemoval(s[1..]);
      FenceRemovalKeepsSecond(s[1..]);
      forall k | 0 <= k <= |r| - 3
        ensures !OccursAt(r, Fence, k)
      {
        if k > 0 {
          assert rest[k - 1..k - 1 + 3] == r[k..k + 3];
          assert !OccursAt(rest, Fence, k - 1);
        } else {
          assert s[0] != '`' || s[1] != '`' || s[2] != '`' by {
            assert s[..3] == [s[0], s[1], s[2]];
          }
          assert r[..3] == [r[0], r[1], r[2]];
        }
      }
    }
  }

  // ---------------------------------------------------------------------
  // split
  // ---------------------------------------------------------------------

  /** The part of s before the first occurrence of c; all of s when c does not occur. */
  function PrefixBefore(s: string, c: char): (r: string)
    ensures |r| <= |s| && r == s[..|r|]
    ensures c !in r
    ensures |r| < |s| ==> s[|r|] == c
  {
    if s == [] || s[0] == c then [] else [s[0]] + PrefixBefore(s[1..], c)
  }

  /** `s.split(sep)[1]`: the field between the first and the second separator, None (undefined) without a separator. */
  function SecondField(s: string, sep: char): (r: Option<string>)
    ensures r.None? <==> sep !in s
    ensures r.Some? ==> sep !in r.value
  {
    var head := PrefixBefore(s, sep);
    if |head| == |s| then None else Some(PrefixBefore(s[|head| + 1..], sep))
  }

  /** A prefix free of c that is followed by c or by nothing is what PrefixBefore returns. */
  lemma {:induction false} PrefixBeforeOf(a: string, rest: string, c: char)
    requires c !in a
    requires rest == [] || rest[0] == c
    ensures PrefixBefore(a + rest, c) == a
  {
    if a != [] {
      assert (a + rest)[1..] == a[1..] + rest;
      PrefixBeforeOf(a[1..], rest, c);
    }
  }

  /** The second field of `a + sep + b + rest` is b when neither a nor b holds the separator and rest starts at one. */
  lemma SecondFieldOf(a: string, b: string, rest: string, sep: char)
    requires sep !in a && sep !in b
    requires rest == [] || rest[0] == sep
    ensures SecondField(a + [sep] + b + rest, sep) == Some(b)
  {
    var s := a + [sep] + b + rest;
    assert s == a + ([sep] + b + rest);
    PrefixBeforeOf(a, [sep] + b + rest, sep);
    assert s[|a| + 1..] == b + rest;
    PrefixBeforeOf(b, rest, sep);
  }
}
