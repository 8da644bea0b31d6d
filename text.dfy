/** The Python string operations the plugin relies on: `str.strip()` with no
    argument, `str.split(sep)` with a one-character separator, `str.join`
    and `str.startswith`. */
module Text {

  /** `c.isspace()` in Python 3. */
  predicate IsSpace(c: char) {
    ('\t' <= c <= '\r') || ('\U{1C}' <= c <= ' ') || c == '\U{85}' || c == '\U{A0}'
    || c == '\U{1680}' || ('\U{2000}' <= c <= '\U{200A}') || c == '\U{2028}'
    || c == '\U{2029}' || c == '\U{202F}' || c == '\U{205F}' || c == '\U{3000}'
  }

  predicate AllSpace(s: string) {
    forall k :: 0 <= k < |s| ==> IsSpace(s[k])
  }

  /** No leading and no trailing whitespace. */
  predicate Trimmed(s: string) {
    s == [] || (!IsSpace(s[0]) && !IsSpace(s[|s| - 1]))
  }

  /** The characters left after removing the whitespace at the front. */
  function TrimLeft(s: string): string {
    if |s| > 0 && IsSpace(s[0]) then TrimLeft(s[1..]) else s
  }

  /** The characters left after removing the whitespace at the back. */
  function TrimRight(s: string): string {
    if |s| > 0 && IsSpace(s[|s| - 1]) then TrimRight(s[..|s| - 1]) else s
  }

  /** `TrimLeft` removes a run of whitespace from the front, and no more. */
  lemma {:induction false} TrimLeftShape(s: string)
    ensures var r := TrimLeft(s);
      && |r| <= |s| && r == s[|s| - |r|..]
      && (r == [] || !IsSpace(r[0]))
      && AllSpace(s[..|s| - |r|])
    decreases |s|
  {
    if |s| > 0 && IsSpace(s[0]) {
      var t := s[1..];
      TrimLeftShape(t);
      var r := TrimLeft(t);
      var n := |s| - |r|;
      assert t[|t| - |r|..] == s[n..];
      forall k | 0 <= k < n ensures IsSpace(s[..n][k]) {
        if k > 0 {
          assert s[..n][k] == t[..n - 1][k - 1];
        }
      }
    } else {
      assert s[..0] == [];
    }
  }

  /** `TrimRight` removes a run of whitespace from the back, and no more. */
  lemma {:induction false} TrimRightShape(s: string)
    ensures var r := TrimRight(s);
      && |r| <= |s| && r == s[..|r|]
      && (r == [] || !IsSpace(r[|r| - 1]))
      && AllSpace(s[|r|..])
    decreases |s|
  {
    if |s| > 0 && IsSpace(s[|s| - 1]) {
      var t := s[..|s| - 1];
      TrimRightShape(t);
      var r := TrimRight(t);
      assert t[..|r|] == s[..|r|];
      forall k | 0 <= k < |s| - |r| ensures IsSpace(s[|r|..][k]) {
        if k < |t| - |r| {
          assert s[|r|..][k] == t[|r|..][k];
        }
      }
    } else {
      assert s[|s|..] == [];
    }
  }

  /** Number of whitespace characters that `Strip` removes at the front. */
  function Lead(s: string): nat {
    TrimLeftShape(s);
    |s| - |TrimLeft(s)|
  }

  /** `s.strip()`: the result is the slice of `s` left after removing the
      whitespace at both ends, and itself starts and ends with non-space. */
  function Strip(s: string): (r: string)
    ensures Lead(s) + |r| <= |s|
    ensures r == s[Lead(s)..Lead(s) + |r|]
    ensures AllSpace(s[..Lead(s)]) && AllSpace(s[Lead(s) + |r|..])
    ensures Trimmed(r)
  {
    var t := TrimLeft(s);
    TrimLeftShape(s);
    var r := TrimRight(t);
    TrimRightShape(t);
    assert r != [] ==> r[0] == t[0];
    assert s[Lead(s) + |r|..] == t[|r|..];
    r
  }

  /** Leading whitespace makes no difference to `TrimLeft`. */
  lemma {:induction false} TrimLeftSpace(pre: string, x: string)
    requires AllSpace(pre)
    ensures TrimLeft(pre + x) == TrimLeft(x)
    decreases |pre|
  {
    if pre == [] {
      assert pre + x == x;
    } else {
      var y := pre + x;
      assert y[0] == pre[0] && y[1..] == pre[1..] + x;
      assert AllSpace(pre[1..]) by {
        forall k | 0 <= k < |pre[1..]| ensures IsSpace(pre[1..][k]) {
          assert pre[1..][k] == pre[k + 1];
        }
      }
      TrimLeftSpace(pre[1..], x);
    }
  }

  /** Trailing whitespace makes no difference to `TrimRight`. */
  lemma {:induction false} TrimRightSpace(x: string, post: string)
    requires AllSpace(post)
    ensures TrimRight(x + post) == TrimRight(x)
    decreases |post|
  {
    if post == [] {
      assert x + post == x;
    } else {
      var y := x + post;
      var p := post[..|post| - 1];
      assert y[|y| - 1] == post[|post| - 1] && y[..|y| - 1] == x + p;
      assert AllSpace(p) by {
        forall k | 0 <= k < |p| ensures IsSpace(p[k]) {
          assert p[k] == post[k];
        }
      }
      TrimRightSpace(x, p);
    }
  }

  /** Stripping a whitespace-padded trimmed string gives back that string:
      the whitespace around it is exactly what `Strip` removes. */
  lemma StripPadded(pre: string, core: string, post: string)
    requires AllSpace(pre) && AllSpace(post) && Trimmed(core)
    ensures Strip(pre + core + post) == core
  {
    var s := pre + core + post;
    assert s == pre + (core + post);
    TrimLeftSpace(pre, core + post);
    if core == [] {
      assert core + post == post + [];
      TrimLeftSpace(post, []);
    } else {
      assert (core + post)[0] == core[0];
      assert TrimLeft(core + post) == core + post;
      TrimRightSpace(core, post);
    }
  }

  lemma StripIdempotent(s: string)
    ensures Strip(Strip(s)) == Strip(s)
  {
    var t := Strip(s);
    StripPadded([], t, []);
    assert [] + t + [] == t;
  }

  lemma AllSpaceConcat(a: string, b: string)
    requires AllSpace(a) && AllSpace(b)
    ensures AllSpace(a + b)
  {
    forall k | 0 <= k < |a + b| ensures IsSpace((a + b)[k]) {
      if k < |a| { assert (a + b)[k] == a[k]; } else { assert (a + b)[k] == b[k - |a|]; }
    }
  }

  /** Whitespace added around a string is removed by `Strip` with the rest. */
  lemma StripAbsorbsPadding(pre: string, s: string, post: string)
    requires AllSpace(pre) && AllSpace(post)
    ensures Strip(pre + s + post) == Strip(s)
  {
    var t := Strip(s);
    var l := Lead(s);
    var front, back := s[..l], s[l + |t|..];
    assert AllSpace(front) && AllSpace(back);
    assert s == front + t + back;
    Regroup(pre, front, t, back, post);
    AllSpaceConcat(pre, front);
    AllSpaceConcat(back, post);
    StripPadded(pre + front, t, back + post);
  }

  /** A solver hint: regrouping a five-part concatenation. */
  lemma Regroup(a: string, b: string, c: string, d: string, e: string)
    ensures a + (b + c + d) + e == (a + b) + c + (d + e)
  {
  }

  predicate StartsWith(s: string, prefix: string) {
    |prefix| <= |s| && s[..|prefix|] == prefix
  }

  /** `s.split(sep)`: the pieces between successive occurrences of `sep`,
      empty pieces included; there is always at least one piece. */
  function Split(s: string, sep: char): (r: seq<string>)
    ensures |r| >= 1
    ensures forall k :: 0 <= k < |r| ==> sep !in r[k]
  {
    if s == [] then [""]
    else
      var rest := Split(s[1..], sep);
      if s[0] == sep then [""] + rest else [[s[0]] + rest[0]] + rest[1..]
  }

  /** `[sep].join(parts)`. */
  function Join(parts: seq<string>, sep: char): string {
    if parts == [] then ""
    else if |parts| == 1 then parts[0]
    else parts[0] + [sep] + Join(parts[1..], sep)
  }

  lemma JoinConsHead(c: char, head: string, tail: seq<string>, sep: char)
    ensures Join([[c] + head] + tail, sep) == [c] + Join([head] + tail, sep)
  {
    var p := [[c] + head] + tail;
    var q := [head] + tail;
    assert p[1..] == tail && q[1..] == tail;
  }

  /** Splitting and joining again gives the original string. */
  lemma {:induction false} JoinSplit(s: string, sep: char)
    ensures Join(Split(s, sep), sep) == s
  {
    if s != [] {
      JoinSplit(s[1..], sep);
      var rest := Split(s[1..], sep);
      if s[0] == sep {
        assert ([""] + rest)[1..] == rest;
        assert s == [sep] + s[1..];
      } else {
        assert rest == [rest[0]] + rest[1..];
        JoinConsHead(s[0], rest[0], rest[1..], sep);
        assert s == [s[0]] + s[1..];
      }
    }
  }

  lemma {:induction false} SplitNoSep(p: string, sep: char)
    requires sep !in p
    ensures Split(p, sep) == [p]
  {
    if p != [] {
      SplitNoSep(p[1..], sep);
      assert p == [p[0]] + p[1..];
    }
  }

  lemma {:induction false} SplitAfterPiece(p: string, t: string, sep: char)
    requires sep !in p
    ensures Split(p + [sep] + t, sep) == [p] + Split(t, sep)
  {
    var s := p + [sep] + t;
    if p == [] {
      assert s == [sep] + t;
      assert s[1..] == t;
    } else {
      assert s[0] == p[0] && s[1..] == p[1..] + [sep] + t;
      SplitAfterPiece(p[1..], t, sep);
      assert p == [p[0]] + p[1..];
    }
  }

  /** Joining pieces that do not contain the separator and splitting again
      gives the pieces back. */
  lemma {:induction false} SplitJoin(parts: seq<string>, sep: char)
    requires |parts| >= 1
    requires forall k :: 0 <= k < |parts| ==> sep !in parts[k]
    ensures Split(Join(parts, sep), sep) == parts
  {
    if |parts| == 1 {
      SplitNoSep(parts[0], sep);
    } else {
      SplitJoin(parts[1..], sep);
      SplitAfterPiece(parts[0], Join(parts[1..], sep), sep);
      assert parts == [parts[0]] + parts[1..];
    }
  }

  /** The first piece of a split: the whole string when it holds no
      separator, otherwise the part before the first separator. */
  lemma SplitHead(s: string, sep: char)
    ensures |Split(s, sep)| == 1 <==> sep !in s
    ensures |Split(s, sep)| == 1 ==> Split(s, sep)[0] == s
    ensures |Split(s, sep)| > 1 ==>
      |Split(s, sep)[0]| < |s| && s[..|Split(s, sep)[0]| + 1] == Split(s, sep)[0] + [sep]
  {
    var r := Split(s, sep);
    JoinSplit(s, sep);
    if |r| > 1 {
      assert s == r[0] + [sep] + Join(r[1..], sep);
      assert s[|r[0]|] == sep;
    }
  }
}
