/** The Python string operations the core relies on: `str.strip()`, `str.split(",")`,
    `sep.join(...)` and substring containment. Strings are sequences of Unicode scalar values. */
module Text {

  /** The characters Python's `str.isspace()` accepts, which `str.strip()` removes. */
  predicate IsSpace(c: char) {
    || c == ' '
    || '\U{9}' <= c <= '\U{D}'
    || '\U{1C}' <= c <= '\U{1F}'
    || c == '\U{85}' || c == '\U{A0}' || c == '\U{1680}'
    || '\U{2000}' <= c <= '\U{200A}'
    || c == '\U{2028}' || c == '\U{2029}' || c == '\U{202F}' || c == '\U{205F}' || c == '\U{3000}'
  }

  predicate AllSpace(s: string) {
    forall i :: 0 <= i < |s| ==> IsSpace(s[i])
  }

  /** Neither end of `s` is whitespace. */
  predicate IsTrimmed(s: string) {
    s == [] || (!IsSpace(s[0]) && !IsSpace(s[|s| - 1]))
  }

  /** `s` without its leading whitespace. */
  function TrimStart(s: string): (r: string)
    ensures |r| <= |s|
    ensures r == [] || !IsSpace(r[0])
  {
    if s != [] && IsSpace(s[0]) then TrimStart(s[1..]) else s
  }

  /** What `TrimStart` removes is a whitespace prefix. */
  lemma {:induction false} TrimStartShape(s: string)
    ensures TrimStart(s) == s[|s| - |TrimStart(s)|..]
    ensures AllSpace(s[..|s| - |TrimStart(s)|])
  {
    if s != [] && IsSpace(s[0]) {
      var r := TrimStart(s[1..]);
      TrimStartShape(s[1..]);
      assert s[..|s| - |r|] == [s[0]] + s[1..][..|s| - 1 - |r|];
    }
  }

  /** `s` without its trailing whitespace. */
  function TrimEnd(s: string): (r: string)
    ensures |r| <= |s|
    ensures r == [] || !IsSpace(r[|r| - 1])
  {
    if s != [] && IsSpace(s[|s| - 1]) then TrimEnd(s[..|s| - 1]) else s
  }

  /** What `TrimEnd` removes is a whitespace suffix. */
  lemma {:induction false} TrimEndShape(s: string)
    ensures TrimEnd(s) == s[..|TrimEnd(s)|]
    ensures AllSpace(s[|TrimEnd(s)|..])
  {
    if s != [] && IsSpace(s[|s| - 1]) {
      var r := TrimEnd(s[..|s| - 1]);
      TrimEndShape(s[..|s| - 1]);
      assert s[|r|..] == s[..|s| - 1][|r|..] + [s[|s| - 1]];
    }
  }

  lemma TrimStartBlank(s: string)
    ensures TrimStart(s) == [] <==> AllSpace(s)
  {
    TrimStartShape(s);
    if TrimStart(s) == [] {
      assert s[..|s|] == s;
    } else {
      assert s[|s| - |TrimStart(s)|] == TrimStart(s)[0];
    }
  }

  lemma TrimEndKeepsHead(u: string)
    requires u == [] || !IsSpace(u[0])
    ensures TrimEnd(u) == [] <==> u == []
    ensures TrimEnd(u) != [] ==> TrimEnd(u)[0] == u[0]
  {
    TrimEndShape(u);
  }

  /** Python's `s.strip()`: `s` without its leading and trailing whitespace. */
  function Trim(s: string): (r: string)
    ensures IsTrimmed(r)
    ensures r == [] <==> AllSpace(s)
  {
    var u := TrimStart(s);
    TrimStartBlank(s);
    TrimEndKeepsHead(u);
    TrimEnd(u)
  }

  /** Trimming keeps only characters of the original. */
  lemma TrimChars(s: string, c: char)
    requires c in Trim(s)
    ensures c in s
  {
    var u := TrimStart(s);
    TrimStartShape(s);
    TrimEndShape(u);
    var i :| 0 <= i < |Trim(s)| && Trim(s)[i] == c;
    assert u[i] == c;
    assert s[|s| - |u| + i] == c;
  }

  lemma TrimOfTrimmed(s: string)
    requires IsTrimmed(s)
    ensures Trim(s) == s
  {
  }

  /** Python's `s.split(sep)` for a one-character separator: the maximal separator-free
      pieces, including empty ones, so there is always at least one. */
  function Split(s: string, sep: char): (r: seq<string>)
    ensures |r| >= 1
    ensures forall i :: 0 <= i < |r| ==> sep !in r[i]
  {
    if s == [] then [""]
    else
      var rest := Split(s[1..], sep);
      if s[0] == sep then [""] + rest else [[s[0]] + rest[0]] + rest[1..]
  }

  /** When every character of `s` is a separator or whitespace, so is every piece of it. */
  lemma {:induction false} SplitOfBlank(s: string, sep: char)
    requires forall i :: 0 <= i < |s| ==> s[i] == sep || IsSpace(s[i])
    ensures forall i :: 0 <= i < |Split(s, sep)| ==> AllSpace(Split(s, sep)[i])
  {
    if s != [] {
      SplitOfBlank(s[1..], sep);
    }
  }

  /** Python's `sep.join(xs)`: the pieces in order with `sep` between neighbours, so the
      text is empty for no pieces and starts with the first piece otherwise. */
  function Join(xs: seq<string>, sep: string): (r: string)
    ensures xs == [] ==> r == ""
    ensures xs != [] ==> xs[0] <= r
  {
    if xs == [] then ""
    else if |xs| == 1 then xs[0]
    else xs[0] + sep + Join(xs[1..], sep)
  }

  lemma JoinConsHead(x: string, c: char, rest: seq<string>, sep: string)
    requires rest != []
    ensures Join([[c] + rest[0]] + rest[1..], sep) == [c] + Join(rest, sep)
  {
    assert ([[c] + rest[0]] + rest[1..])[1..] == rest[1..];
  }

  /** Joining the pieces of a split restores the string. */
  lemma {:induction false} JoinSplit(s: string, sep: char)
    ensures Join(Split(s, sep), [sep]) == s
  {
    if s != [] {
      var rest := Split(s[1..], sep);
      JoinSplit(s[1..], sep);
      if s[0] == sep {
        assert ([""] + rest)[1..] == rest;
      } else {
        JoinConsHead("", s[0], rest, [sep]);
      }
    }
  }

  /** A separator-free string is one piece. */
  lemma {:induction false} SplitSingle(a: string, sep: char)
    requires sep !in a
    ensures Split(a, sep) == [a]
  {
    if a != [] {
      SplitSingle(a[1..], sep);
      assert [a[0]] + a[1..] == a;
    }
  }

  /** Splitting at the first separator. */
  lemma {:induction false} SplitAtSeparator(a: string, b: string, sep: char)
    requires sep !in a
    ensures Split(a + [sep] + b, sep) == [a] + Split(b, sep)
  {
    if a == [] {
      assert a + [sep] + b == [sep] + b;
      assert ([sep] + b)[1..] == b;
    } else {
      assert (a + [sep] + b)[1..] == a[1..] + [sep] + b;
      SplitAtSeparator(a[1..], b, sep);
      assert [a[0]] + a[1..] == a;
    }
  }

  /** Splitting a join of separator-free pieces gives the pieces back. */
  lemma {:induction false} SplitJoin(xs: seq<string>, sep: char)
    requires |xs| >= 1
    requires forall i :: 0 <= i < |xs| ==> sep !in xs[i]
    ensures Split(Join(xs, [sep]), sep) == xs
  {
    if |xs| == 1 {
      SplitSingle(xs[0], sep);
    } else {
      SplitJoin(xs[1..], sep);
      assert Join(xs, [sep]) == xs[0] + [sep] + Join(xs[1..], [sep]);
      SplitAtSeparator(xs[0], Join(xs[1..], [sep]), sep);
    }
  }

  lemma {:induction false} JoinNonEmpty(xs: seq<string>, sep: string)
    requires xs != [] && xs[0] != ""
    ensures Join(xs, sep) != ""
  {
  }

  /** `part` occurs in `s` as a contiguous substring (SQL `s LIKE '%part%'` without wildcards or case folding). */
  predicate Contains(s: string, part: string)
    ensures Contains(s, part) ==> |part| <= |s|
  {
    part <= s || (s != [] && Contains(s[1..], part))
  }

  /** Containment means there is a position where `part` starts. */
  lemma {:induction false} ContainsAt(s: string, part: string, k: nat)
    requires k + |part| <= |s| && s[k..k + |part|] == part
    ensures Contains(s, part)
  {
    if k > 0 {
      assert s[1..][k - 1..k - 1 + |part|] == part;
      ContainsAt(s[1..], part, k - 1);
    } else {
      assert part <= s;
    }
  }

  /** `part` starts at position `k` of `s`. */
  predicate OccursAt(s: string, part: string, k: nat) {
    k + |part| <= |s| && s[k..k + |part|] == part
  }

  /** Conversely, containment gives a position where `part` starts. */
  lemma {:induction false} ContainsSomewhere(s: string, part: string)
    requires Contains(s, part)
    ensures exists k: nat :: OccursAt(s, part, k)
  {
    if part <= s {
      assert OccursAt(s, part, 0);
    } else {
      ContainsSomewhere(s[1..], part);
      var k: nat :| OccursAt(s[1..], part, k);
      assert s[k + 1..k + 1 + |part|] == s[1..][k..k + |part|];
      assert OccursAt(s, part, k + 1);
    }
  }

  /** Containment in a suffix is containment in the whole. */
  lemma ContainsInSuffix(a: string, b: string, part: string)
    requires Contains(b, part)
    ensures Contains(a + b, part)
  {
    ContainsSomewhere(b, part);
    var k: nat :| OccursAt(b, part, k);
    assert (a + b)[|a| + k..|a| + k + |part|] == b[k..k + |part|];
    ContainsAt(a + b, part, |a| + k);
  }

  /** Every piece occurs in the join. */
  lemma {:induction false} JoinContainsAll(xs: seq<string>, sep: string)
    ensures forall i :: 0 <= i < |xs| ==> Contains(Join(xs, sep), xs[i])
  {
    if |xs| >= 1 {
      assert Contains(Join(xs, sep), xs[0]);
    }
    if |xs| > 1 {
      JoinContainsAll(xs[1..], sep);
      forall i | 1 <= i < |xs| ensures Contains(Join(xs, sep), xs[i]) {
        assert xs[i] == xs[1..][i - 1];
        ContainsInSuffix(xs[0] + sep, Join(xs[1..], sep), xs[i]);
        assert Join(xs, sep) == (xs[0] + sep) + Join(xs[1..], sep);
      }
    }
  }
}
