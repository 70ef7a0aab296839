/** Small string utilities the renderers are built from: prefix and suffix
    tests, the first position of a character, and joining with a separator
    (the semantics of Swift's `joined(separator:)`). */
module Text {

  datatype Option<+T> = None | Some(value: T)

  /** True when `p` is a prefix of `s`. */
  predicate IsPrefix(p: string, s: string)
  {
    |p| <= |s| && s[..|p|] == p
  }

  /** True when `p` is a suffix of `s`. */
  predicate IsSuffix(p: string, s: string)
  {
    |p| <= |s| && s[|s| - |p|..] == p
  }

  lemma PrefixAppend(p: string, s: string, x: string)
    requires IsPrefix(p, s)
    ensures IsPrefix(p, s + x)
  {
    assert (s + x)[..|p|] == s[..|p|];
  }

  lemma PrefixCommon(a: string, b: string, c: string)
    requires IsPrefix(b, c)
    ensures IsPrefix(a + b, a + c)
  {
    assert (a + c)[..|a + b|] == a + c[..|b|];
  }

  /** A prefix fixes the first character. */
  lemma FirstChar(p: string, s: string)
    requires |p| > 0
    ensures IsPrefix(p, s) ==> s[0] == p[0]
  {
    if IsPrefix(p, s) {
      assert s[..|p|][0] == s[0];
    }
  }

  /** Text put in front leaves a suffix no longer than the rest unaffected. */
  lemma SuffixDrop(p: string, x: string, s: string)
    requires |p| <= |s|
    ensures IsSuffix(p, x + s) <==> IsSuffix(p, s)
  {
    assert (x + s)[|x + s| - |p|..] == s[|s| - |p|..];
  }

  lemma SuffixAppendBoth(p: string, s: string, x: string)
    requires IsSuffix(p, s)
    ensures IsSuffix(p + x, s + x)
  {
    assert (s + x)[|s + x| - |p + x|..] == s[|s| - |p|..] + x;
  }

  /** Text appended after a space ends the whole with that space and itself. */
  lemma SpaceBeforeLast(w: string, x: string)
    requires |w| > 0 && w[|w| - 1] == ' '
    ensures IsSuffix(" " + x, w + x)
  {
    assert IsSuffix(" ", w) by {
      assert w[|w| - 1..] == [w[|w| - 1]];
    }
    SuffixAppendBoth(" ", w, x);
  }

  /** A suffix fixes the last character. */
  lemma SuffixLast(p: string, s: string)
    requires |p| > 0
    ensures IsSuffix(p, s) ==> s[|s| - 1] == p[|p| - 1]
  {
    if IsSuffix(p, s) {
      assert s[|s| - |p|..][|p| - 1] == s[|s| - 1];
    }
  }

  /** A suffix of a suffix is a suffix. */
  lemma SuffixTrans(q: string, p: string, s: string)
    ensures IsSuffix(q, p) && IsSuffix(p, s) ==> IsSuffix(q, s)
  {
    if IsSuffix(q, p) && IsSuffix(p, s) {
      assert s[|s| - |q|..] == s[|s| - |p|..][|p| - |q|..];
    }
  }

  /** A mismatch at some position rules a prefix out. */
  lemma MismatchNotPrefix(p: string, s: string, i: nat)
    requires i < |p| && i < |s| && s[i] != p[i]
    ensures !IsPrefix(p, s)
  {
  }

  /** The index of the first occurrence of `ch` in `s`, or `|s|` when `ch` does not occur. */
  function IndexOf(s: string, ch: char): (i: nat)
    ensures i <= |s|
    ensures i < |s| ==> s[i] == ch
    ensures forall j :: 0 <= j < i ==> s[j] != ch
  {
    if |s| == 0 then 0
    else if s[0] == ch then 0
    else 1 + IndexOf(s[1..], ch)
  }

  /** When `ch` does not occur in `a`, the first `ch` of `a + b` is the first `ch` of `b`, shifted by `|a|`. */
  lemma {:induction false} IndexOfAfter(a: string, b: string, ch: char)
    requires forall j :: 0 <= j < |a| ==> a[j] != ch
    ensures IndexOf(a + b, ch) == |a| + IndexOf(b, ch)
  {
    if |a| > 0 {
      assert (a + b)[0] == a[0];
      assert (a + b)[1..] == a[1..] + b;
      IndexOfAfter(a[1..], b, ch);
    } else {
      assert a + b == b;
    }
  }

  /** The sum of the lengths of `parts`. */
  function TotalLength(parts: seq<string>): nat
  {
    if |parts| == 0 then 0 else |parts[0]| + TotalLength(parts[1..])
  }

  /** The elements of `parts` with `sep` between every two neighbours. */
  function Join(parts: seq<string>, sep: string): (r: string)
    ensures parts == [] ==> r == ""
    ensures parts != [] ==> IsPrefix(parts[0], r) && IsSuffix(parts[|parts| - 1], r)
  {
    if |parts| == 0 then ""
    else if |parts| == 1 then parts[0]
    else parts[0] + sep + Join(parts[1..], sep)
  }

  /** The joined length: every element plus one separator between each two neighbours. */
  lemma {:induction false} JoinLength(parts: seq<string>, sep: string)
    requires parts != []
    ensures |Join(parts, sep)| == TotalLength(parts) + (|parts| - 1) * |sep|
  {
    if |parts| > 1 {
      JoinLength(parts[1..], sep);
      assert (|parts| - 1) * |sep| == (|parts| - 2) * |sep| + |sep|;
    }
  }

  /** Joining is the same whether the separator is placed after each element
      but the last (the definition above) or before each element but the first. */
  lemma {:induction false} JoinSnoc(parts: seq<string>, p: string, sep: string)
    requires parts != []
    ensures Join(parts + [p], sep) == Join(parts, sep) + sep + p
  {
    var ps := parts + [p];
    if |parts| == 1 {
      assert ps == [parts[0], p];
      assert ps[1..] == [p];
    } else {
      var rest := parts[1..];
      assert ps[0] == parts[0];
      assert ps[1..] == rest + [p];
      JoinSnoc(rest, p, sep);
      var j := Join(rest, sep);
      assert Join(ps, sep) == parts[0] + sep + (j + sep + p);
      assert Join(parts, sep) == parts[0] + sep + j;
      Concat5(parts[0], sep, j, sep, p);
    }
  }

  lemma Concat5(a: string, b: string, c: string, d: string, e: string)
    ensures a + b + (c + d + e) == a + b + c + d + e
  {
  }

  lemma Concat3Left(a: string, b: string, c: string)
    ensures a + (b + c) == a + b + c
  {
  }

  lemma Concat4Right(a: string, b: string, c: string, d: string, e: string)
    ensures a + (b + c + d + e) == a + b + c + d + e
  {
  }
}
