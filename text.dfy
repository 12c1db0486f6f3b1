/**
  The pieces of Python's `str` and `list` that the parsers use: whitespace
  splitting (`str.split()` with no argument), `str.strip()`, `startswith`,
  substring membership (`in`), `str.replace` of one character, `list.index`
  and list subscription with negative indices.
 */
module Text {
  import opened Wrappers

  /** `str.isspace()` for one character, as CPython defines it. */
  predicate IsSpace(c: char) {
    || c == ' '
    || ('\t' <= c <= '\r')
    || ('\U{1c}' <= c <= '\U{1f}')
    || c == '\U{85}' || c == '\U{a0}' || c == '\U{1680}'
    || ('\U{2000}' <= c <= '\U{200a}')
    || c == '\U{2028}' || c == '\U{2029}' || c == '\U{202f}' || c == '\U{205f}' || c == '\U{3000}'
  }

  /** A string without any whitespace character. */
  predicate NoSpace(s: string) {
    forall i :: 0 <= i < |s| ==> !IsSpace(s[i])
  }

  /** A token as `str.split()` produces it: non-empty, no whitespace. */
  predicate IsToken(s: string) {
    s != [] && NoSpace(s)
  }

  /** Drops the leading whitespace of `s`. */
  function DropSpace(s: string): (r: string)
    ensures |r| <= |s| && (r != [] ==> !IsSpace(r[0]))
  {
    if s != [] && IsSpace(s[0]) then DropSpace(s[1..]) else s
  }

  /** Drops the trailing whitespace of `s`. */
  function DropSpaceEnd(s: string): (r: string)
    ensures |r| <= |s| && (r != [] ==> !IsSpace(r[|r| - 1]))
  {
    if s != [] && IsSpace(s[|s| - 1]) then DropSpaceEnd(s[..|s| - 1]) else s
  }

  /** `s.strip()`. */
  function Strip(s: string): string {
    DropSpaceEnd(DropSpace(s))
  }

  /** The longest prefix of `s` without whitespace. */
  function Word(s: string): (w: string)
    ensures |w| <= |s| && (s != [] && !IsSpace(s[0]) ==> w != [])
  {
    if s != [] && !IsSpace(s[0]) then [s[0]] + Word(s[1..]) else []
  }

  /** `s.split()`: the maximal runs of non-whitespace characters, in order. */
  function Split(s: string): seq<string>
    decreases |s|
  {
    var t := DropSpace(s);
    if t == [] then [] else var w := Word(t); [w] + Split(t[|w|..])
  }

  /** `s.startswith(p)`. */
  predicate StartsWith(s: string, p: string) {
    |p| <= |s| && s[..|p|] == p
  }

  /** `p` occurs in `s` starting at position `i`. */
  predicate OccursAt(s: string, p: string, i: int) {
    0 <= i <= |s| - |p| && s[i..i + |p|] == p
  }

  /** `p in s` for strings: `p` occurs in `s` as a contiguous substring. */
  predicate Contains(s: string, p: string)
    decreases |s|
  {
    StartsWith(s, p) || (s != [] && Contains(s[1..], p))
  }

  /** `s.replace(a, b)` for one-character `a` and `b`. */
  function Replace(s: string, a: char, b: char): (r: string)
    ensures |r| == |s|
    ensures forall i :: 0 <= i < |s| ==> r[i] == if s[i] == a then b else s[i]
  {
    if s == [] then [] else [if s[0] == a then b else s[0]] + Replace(s[1..], a, b)
  }

  /** `xs.index(x)`, with `None` for the `ValueError` it raises when `x` is absent. */
  function IndexOf<T(==)>(xs: seq<T>, x: T): (r: Option<nat>)
    ensures r.Some? <==> x in xs
    ensures r.Some? ==> r.value < |xs| && xs[r.value] == x && x !in xs[..r.value]
  {
    if xs == [] then None
    else if xs[0] == x then Some(0)
    else match IndexOf(xs[1..], x)
      case None => None
      case Some(k) =>
        assert xs[..k + 1] == [xs[0]] + xs[1..][..k];
        Some(k + 1)
  }

  /** `xs[i]` as Python evaluates it: a negative `i` counts from the end; `None` is the `IndexError`. */
  function At<T>(xs: seq<T>, i: int): Option<T> {
    if 0 <= i < |xs| then Some(xs[i])
    else if -|xs| <= i < 0 then Some(xs[|xs| + i])
    else None
  }

  /** The tokens joined with one space between neighbours: `' '.join(ws)`. */
  function Join(ws: seq<string>): string {
    if ws == [] then [] else if |ws| == 1 then ws[0] else ws[0] + " " + Join(ws[1..])
  }

  // ---------------------------------------------------------------------------
  // Properties

  /** The leading whitespace is a prefix of spaces, and what remains is the rest of `s`. */
  lemma {:induction false} DropSpaceSuffix(s: string)
    ensures DropSpace(s) == s[|s| - |DropSpace(s)|..]
    ensures forall i :: 0 <= i < |s| - |DropSpace(s)| ==> IsSpace(s[i])
    decreases |s|
  {
    if s != [] && IsSpace(s[0]) {
      DropSpaceSuffix(s[1..]);
      assert forall i :: 1 <= i < |s| ==> s[1..][i - 1] == s[i];
    }
  }

  /** The trailing whitespace is a suffix of spaces, and what remains is the start of `s`. */
  lemma {:induction false} DropSpaceEndPrefix(s: string)
    ensures DropSpaceEnd(s) == s[..|DropSpaceEnd(s)|]
    ensures forall i :: |DropSpaceEnd(s)| <= i < |s| ==> IsSpace(s[i])
    decreases |s|
  {
    if s != [] && IsSpace(s[|s| - 1]) {
      DropSpaceEndPrefix(s[..|s| - 1]);
    }
  }

  /** `Word(s)` is a whitespace-free prefix of `s` that ends at whitespace or at the end of `s`. */
  lemma {:induction false} WordPrefix(s: string)
    ensures Word(s) == s[..|Word(s)|] && NoSpace(Word(s))
    ensures |Word(s)| < |s| ==> IsSpace(s[|Word(s)|])
    decreases |s|
  {
    if s != [] && !IsSpace(s[0]) {
      WordPrefix(s[1..]);
    }
  }

  /** Every element of `s.split()` is a token. */
  lemma {:induction false} SplitTokens(s: string)
    ensures forall k :: 0 <= k < |Split(s)| ==> IsToken(Split(s)[k])
    decreases |s|
  {
    var t := DropSpace(s);
    if t != [] {
      var w := Word(t);
      WordPrefix(t);
      SplitTokens(t[|w|..]);
      assert Split(s) == [w] + Split(t[|w|..]);
    }
  }

  /** `xs.index(x)` is the position of `x` that no earlier occurrence precedes. */
  lemma IndexOfAt<T>(xs: seq<T>, x: T, i: nat)
    requires i < |xs| && xs[i] == x && forall j :: 0 <= j < i ==> xs[j] != x
    ensures IndexOf(xs, x) == Some(i)
  {
  }

  /** A negative index and its non-negative counterpart name the same element. */
  lemma AtNegative<T>(xs: seq<T>, i: nat)
    requires i < |xs|
    ensures At(xs, i - |xs|) == At(xs, i) == Some(xs[i])
  {
  }

  /** `p in s` is the existence of a position where `p` starts. */
  lemma {:induction false} ContainsAt(s: string, p: string)
    ensures Contains(s, p) <==> exists i :: OccursAt(s, p, i)
    decreases |s|
  {
    if StartsWith(s, p) {
      assert OccursAt(s, p, 0);
    } else if s == [] {
    } else {
      ContainsAt(s[1..], p);
      if exists i :: OccursAt(s[1..], p, i) {
        var i :| OccursAt(s[1..], p, i);
        assert s[i + 1..i + 1 + |p|] == s[1..][i..i + |p|];
        assert OccursAt(s, p, i + 1);
      }
      if exists i :: OccursAt(s, p, i) {
        var i :| OccursAt(s, p, i);
        if i != 0 {
          assert s[1..][i - 1..i - 1 + |p|] == s[i..i + |p|];
          assert OccursAt(s[1..], p, i - 1);
        }
      }
    }
  }

  /** `s.split()` is empty exactly when `s` is all whitespace. */
  lemma SplitEmpty(s: string)
    ensures Split(s) == [] <==> forall i :: 0 <= i < |s| ==> IsSpace(s[i])
  {
    DropSpaceSuffix(s);
    var t := DropSpace(s);
    assert Split(s) == [] <==> t == [];
    if t != [] {
      assert s[|s| - |t|] == t[0];
    }
  }

  /** A line is blank after `strip()` exactly when `split()` finds no token in it. */
  lemma StripBlank(s: string)
    ensures Strip(s) == [] <==> Split(s) == []
  {
    var t := DropSpace(s);
    assert Split(s) == [] <==> t == [];
    if t != [] {
      DropSpaceEndPrefix(t);
      assert !IsSpace(t[0]);
    }
  }

  /** A string that neither starts nor ends with whitespace is its own `strip()`. */
  lemma StripTrimmed(s: string)
    requires s != [] && !IsSpace(s[0]) && !IsSpace(s[|s| - 1])
    ensures Strip(s) == s
  {
  }

  /** `s.strip()` starts with the first token of `s.split()`, followed by whitespace if by anything. */
  lemma StripWord(s: string)
    requires Split(s) != []
    ensures StartsWith(Strip(s), Split(s)[0])
    ensures |Split(s)[0]| < |Strip(s)| ==> IsSpace(Strip(s)[|Split(s)[0]|])
  {
    var t := DropSpace(s);
    var w := Word(t);
    WordPrefix(t);
    DropSpaceEndPrefix(t);
    assert Split(s)[0] == w;
    assert !IsSpace(t[|w| - 1]);
    assert Strip(s)[..|w|] == t[..|w|];
  }

  /** Every token of `s.split()` occurs in `s`. */
  lemma {:induction false} SplitContains(s: string, k: nat)
    requires k < |Split(s)|
    ensures Contains(s, Split(s)[k])
    decreases |s|
  {
    DropSpaceSuffix(s);
    var t := DropSpace(s);
    var w := Word(t);
    WordPrefix(t);
    var d := |s| - |t|;
    var rest := t[|w|..];
    assert Split(s) == [w] + Split(rest);
    var x := Split(s)[k];
    if k == 0 {
      assert s[d..d + |w|] == t[..|w|];
      assert OccursAt(s, w, d);
      ContainsAt(s, w);
    } else {
      assert x == Split(rest)[k - 1];
      SplitContains(rest, k - 1);
      ContainsAt(rest, x);
      var i :| OccursAt(rest, x, i);
      assert s[d + |w| + i..d + |w| + i + |x|] == rest[i..i + |x|];
      assert OccursAt(s, x, d + |w| + i);
      ContainsAt(s, x);
    }
  }

  /** A string holding one non-whitespace character has at least one token. */
  lemma SplitNonEmpty(s: string, i: nat)
    requires i < |s| && !IsSpace(s[i])
    ensures Split(s) != []
  {
    SplitEmpty(s);
  }

  /** Splitting a string with a non-space prefix: the first token is the first word. */
  lemma {:induction false} WordOfConcat(w: string, rest: string)
    requires NoSpace(w)
    requires rest == [] || IsSpace(rest[0])
    ensures Word(w + rest) == w
    decreases |w|
  {
    if w != [] {
      assert (w + rest)[1..] == w[1..] + rest;
      WordOfConcat(w[1..], rest);
    }
  }

  /** Splitting a space-joined list of tokens gives back the list. */
  lemma {:induction false} SplitJoin(ws: seq<string>)
    requires forall k :: 0 <= k < |ws| ==> IsToken(ws[k])
    ensures Split(Join(ws)) == ws
    decreases |ws|
  {
    if ws == [] {
    } else if |ws| == 1 {
      var s := ws[0];
      assert DropSpace(s) == s;
      WordOfConcat(s, []);
      assert s + [] == s;
      assert s[|s|..] == [];
    } else {
      var s := Join(ws);
      var rest := " " + Join(ws[1..]);
      assert s == ws[0] + rest;
      assert DropSpace(s) == s;
      WordOfConcat(ws[0], rest);
      assert s[|ws[0]|..] == rest;
      assert rest[1..] == Join(ws[1..]);
      assert DropSpace(rest) == DropSpace(Join(ws[1..]));
      SplitJoin(ws[1..]);
    }
  }

  /** A token of `Join(ws)` is a substring of it. */
  lemma {:induction false} JoinContains(ws: seq<string>, k: nat)
    requires k < |ws|
    ensures Contains(Join(ws), ws[k])
    decreases |ws|
  {
    var s := Join(ws);
    if k == 0 {
      if |ws| > 1 {
        assert s == ws[0] + (" " + Join(ws[1..]));
        assert s[..|ws[0]|] == ws[0];
      }
      assert StartsWith(s, ws[0]);
    } else {
      JoinContains(ws[1..], k - 1);
      var t := Join(ws[1..]);
      ContainsAt(t, ws[k]);
      var i :| OccursAt(t, ws[k], i);
      var off := |ws[0]| + 1;
      assert s == ws[0] + " " + t;
      assert s[off + i..off + i + |ws[k]|] == t[i..i + |ws[k]|];
      assert OccursAt(s, ws[k], off + i);
      ContainsAt(s, ws[k]);
    }
  }
}
