/**
 * Python's notion of whitespace and `str.strip()` with no arguments, plus the
 * substring vocabulary the prompt properties are stated in.
 */
module Text {

  /**
   * The characters Python's `str.isspace` (and so `str.strip()` with no
   * argument) treats as whitespace, listed one by one.
   */
  const SpaceChars: set<char> := {
    ' ', '\t', '\n', '\r', '\U{000B}', '\U{000C}',
    '\U{001C}', '\U{001D}', '\U{001E}', '\U{001F}',
    '\U{0085}', '\U{00A0}', '\U{1680}',
    '\U{2000}', '\U{2001}', '\U{2002}', '\U{2003}', '\U{2004}', '\U{2005}',
    '\U{2006}', '\U{2007}', '\U{2008}', '\U{2009}', '\U{200A}',
    '\U{2028}', '\U{2029}', '\U{202F}', '\U{205F}', '\U{3000}'
  }

  /** `str.isspace()` for one character, written as the ranges of the Unicode tables. */
  predicate IsSpace(c: char)
  {
    || c == ' ' || c == '\t' || c == '\n' || c == '\r'
    || c == '\U{000B}' || c == '\U{000C}'
    || ('\U{001C}' <= c <= '\U{001F}')
    || c == '\U{0085}' || c == '\U{00A0}' || c == '\U{1680}'
    || ('\U{2000}' <= c <= '\U{200A}')
    || c == '\U{2028}' || c == '\U{2029}' || c == '\U{202F}' || c == '\U{205F}' || c == '\U{3000}'
  }

  /** The ranges in `IsSpace` are exactly the listed characters. */
  lemma IsSpaceListed(c: char)
    ensures IsSpace(c) <==> c in SpaceChars
  {
  }

  predicate AllSpace(s: string)
  {
    forall i :: 0 <= i < |s| ==> IsSpace(s[i])
  }

  /** Neither end of `s` is whitespace: the strings `strip()` can return. */
  predicate IsStripped(s: string)
  {
    s == [] || (!IsSpace(s[0]) && !IsSpace(s[|s| - 1]))
  }

  predicate StartsWith(s: string, prefix: string)
  {
    |prefix| <= |s| && s[..|prefix|] == prefix
  }

  predicate EndsWith(s: string, suffix: string)
  {
    |suffix| <= |s| && s[|s| - |suffix|..] == suffix
  }

  /** `w` occurs in `s` starting at index `i`. */
  predicate OccursAt(s: string, w: string, i: int)
  {
    0 <= i <= |s| - |w| && s[i..i + |w|] == w
  }

  /** `w in s` for Python strings. */
  predicate Contains(s: string, w: string)
  {
    exists i :: 0 <= i <= |s| - |w| && OccursAt(s, w, i)
  }

  /** `s` is `r` with the all-whitespace margins `s[..i]` and `s[i + |r|..]` around it. */
  predicate PaddedAt(s: string, r: string, i: int)
  {
    OccursAt(s, r, i) && AllSpace(s[..i]) && AllSpace(s[i + |r|..])
  }

  /** `s.lstrip()`: the suffix left after dropping leading whitespace. */
  function TrimLeft(s: string): (r: string)
    ensures |r| <= |s| && r == s[|s| - |r|..]
    ensures AllSpace(s[..|s| - |r|])
    ensures r == [] || !IsSpace(r[0])
  {
    if s != [] && IsSpace(s[0]) then
      var r := TrimLeft(s[1..]);
      TrimLeftStep(s, r);
      r
    else s
  }

  /** One leading whitespace character more is one more character lstrip drops. */
  lemma TrimLeftStep(s: string, r: string)
    requires s != [] && IsSpace(s[0])
    requires |r| <= |s| - 1 && r == s[1..][|s| - 1 - |r|..] && AllSpace(s[1..][..|s| - 1 - |r|])
    ensures r == s[|s| - |r|..] && AllSpace(s[..|s| - |r|])
  {
    assert s[1..][|s| - 1 - |r|..] == s[|s| - |r|..];
    forall k | 0 <= k < |s| - |r| ensures IsSpace(s[k]) {
      if k > 0 { assert s[k] == s[1..][..|s| - 1 - |r|][k - 1]; }
    }
  }

  /** `s.rstrip()`: the prefix left after dropping trailing whitespace. */
  function TrimRight(s: string): (r: string)
    ensures |r| <= |s| && r == s[..|r|]
    ensures AllSpace(s[|r|..])
    ensures r == [] || !IsSpace(r[|r| - 1])
    ensures r == [] <==> AllSpace(s)
  {
    if s != [] && IsSpace(s[|s| - 1]) then TrimRight(s[..|s| - 1]) else s
  }

  /**
   * `s.strip()`: `s` with whitespace removed from both ends. The result is the
   * piece of `s` between two all-whitespace margins, and it has no whitespace
   * at either end; it is empty exactly when `s` is all whitespace.
   */
  function Strip(s: string): (r: string)
    ensures IsStripped(r)
    ensures exists i :: PaddedAt(s, r, i)
    ensures r == [] <==> AllSpace(s)
  {
    StripFacts(s, TrimLeft(s), TrimRight(TrimLeft(s)));
    TrimRight(TrimLeft(s))
  }

  /** The facts about lstrip and rstrip that `Strip` is built from, stated without unfolding either. */
  lemma StripFacts(s: string, l: string, r: string)
    requires |l| <= |s| && l == s[|s| - |l|..] && AllSpace(s[..|s| - |l|]) && (l == [] || !IsSpace(l[0]))
    requires |r| <= |l| && r == l[..|r|] && AllSpace(l[|r|..]) && (r == [] || !IsSpace(r[|r| - 1]))
    ensures IsStripped(r)
    ensures exists i :: PaddedAt(s, r, i)
    ensures r == [] <==> AllSpace(s)
  {
    var i := |s| - |l|;
    assert s[i..i + |r|] == r;
    assert s[i + |r|..] == l[|r|..];
    if r != [] {
      assert r[0] == l[0];
      assert s[i] == r[0];
    } else {
      assert s == s[..i] + l;
      AllSpaceConcat(s[..i], l);
    }
    assert PaddedAt(s, r, i);
  }

  lemma AllSpaceConcat(a: string, b: string)
    ensures AllSpace(a + b) <==> AllSpace(a) && AllSpace(b)
  {
    if AllSpace(a + b) {
      forall k | 0 <= k < |a| ensures IsSpace(a[k]) { assert a[k] == (a + b)[k]; }
      forall k | 0 <= k < |b| ensures IsSpace(b[k]) { assert b[k] == (a + b)[|a| + k]; }
    }
    if AllSpace(a) && AllSpace(b) {
      forall k | 0 <= k < |a + b| ensures IsSpace((a + b)[k]) {
        if k < |a| { assert (a + b)[k] == a[k]; } else { assert (a + b)[k] == b[k - |a|]; }
      }
    }
  }

  /** Leading whitespace in front of a string that does not start with whitespace is what lstrip removes. */
  lemma {:induction false} TrimLeftAfterSpace(a: string, t: string)
    requires AllSpace(a)
    requires t == [] || !IsSpace(t[0])
    ensures TrimLeft(a + t) == t
  {
    if a != [] {
      assert (a + t)[1..] == a[1..] + t;
      TrimLeftAfterSpace(a[1..], t);
    }
  }

  /** Trailing whitespace behind a string that does not end with whitespace is what rstrip removes. */
  lemma {:induction false} TrimRightBeforeSpace(t: string, b: string)
    requires AllSpace(b)
    requires t == [] || !IsSpace(t[|t| - 1])
    ensures TrimRight(t + b) == t
  {
    if b != [] {
      assert (t + b)[..|t + b| - 1] == t + b[..|b| - 1];
      TrimRightBeforeSpace(t, b[..|b| - 1]);
    }
  }

  /**
   * `strip()` is determined by its two properties: whatever sits between two
   * all-whitespace margins and has no whitespace at its ends is the result.
   */
  lemma StripUnique(a: string, r: string, b: string)
    requires AllSpace(a) && AllSpace(b) && IsStripped(r)
    ensures Strip(a + r + b) == r
  {
    if r == [] {
      assert AllSpace(a + r + b) by {
        forall i | 0 <= i < |a + r + b| ensures IsSpace((a + r + b)[i]) {
          if i < |a| { assert (a + r + b)[i] == a[i]; } else { assert (a + r + b)[i] == b[i - |a|]; }
        }
      }
    } else {
      assert a + r + b == a + (r + b);
      TrimLeftAfterSpace(a, r + b);
      TrimRightBeforeSpace(r, b);
    }
  }

  /**
   * rstrip of a concatenation: when the right part holds a non-whitespace
   * character only the right part is trimmed; when it is all whitespace it
   * vanishes and the trimming continues into the left part.
   */
  lemma {:induction false} TrimRightAppend(a: string, b: string)
    ensures !AllSpace(b) ==> TrimRight(a + b) == a + TrimRight(b)
    ensures AllSpace(b) ==> TrimRight(a + b) == TrimRight(a)
  {
    if b == [] {
      assert a + b == a;
    } else if IsSpace(b[|b| - 1]) {
      assert (a + b)[..|a + b| - 1] == a + b[..|b| - 1];
      TrimRightAppend(a, b[..|b| - 1]);
      if AllSpace(b) {
        assert AllSpace(b[..|b| - 1]);
      } else {
        assert !AllSpace(b[..|b| - 1]);
      }
    } else {
      assert !AllSpace(b);
    }
  }

  lemma ContainsInfix(a: string, w: string, b: string)
    ensures Contains(a + w + b, w)
  {
    assert (a + w + b)[|a|..|a| + |w|] == w;
    assert OccursAt(a + w + b, w, |a|);
  }

  lemma StartsWithAppend(s: string, prefix: string, t: string)
    requires StartsWith(s, prefix)
    ensures StartsWith(s + t, prefix)
  {
    assert (s + t)[..|prefix|] == s[..|prefix|];
  }

  lemma ContainsExtend(s: string, w: string, t: string)
    requires Contains(s, w)
    ensures Contains(s + t, w)
  {
    var i :| 0 <= i <= |s| - |w| && OccursAt(s, w, i);
    assert (s + t)[i..i + |w|] == s[i..i + |w|];
    assert OccursAt(s + t, w, i);
  }

  /** A string ending in `tag`, followed by `x`, contains `tag + x`. */
  lemma EndsWithThenContains(s: string, tag: string, x: string, t: string)
    requires EndsWith(s, tag)
    ensures Contains(s + x + t, tag + x)
  {
    var before := s[..|s| - |tag|];
    assert s == before + tag;
    assert s + x + t == before + (tag + x) + t;
    ContainsInfix(before, tag + x, t);
  }
}
