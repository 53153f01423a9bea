/**
 * The few Python `str` operations the modelled code relies on, with the
 * semantics CPython gives them on text strings.
 */
module PyStrings {

  /** `c.isspace()`: the code points CPython treats as whitespace, which are
      also the ones the regular expression class `\s` matches. */
  predicate IsSpace(c: char) {
    c == ' ' || ('\t' <= c <= '\r') || ('\U{1c}' <= c <= '\U{1f}')
    || c == '\U{85}' || c == '\U{a0}' || c == '\U{1680}'
    || ('\U{2000}' <= c <= '\U{200a}') || c == '\U{2028}' || c == '\U{2029}'
    || c == '\U{202f}' || c == '\U{205f}' || c == '\U{3000}'
  }

  /** `s.lstrip()` */
  function LStrip(s: string): (r: string)
    ensures |r| <= |s|
  {
    if s != [] && IsSpace(s[0]) then LStrip(s[1..]) else s
  }

  /** `lstrip()` keeps a suffix that does not start with whitespace and
      removes only whitespace. */
  lemma {:induction false} LStripSpec(s: string)
    ensures var r := LStrip(s);
            r == s[|s| - |r|..] &&
            (forall i :: 0 <= i < |s| - |r| ==> IsSpace(s[i])) &&
            (r != [] ==> !IsSpace(r[0]))
  {
    if s != [] && IsSpace(s[0]) {
      LStripSpec(s[1..]);
      var r := LStrip(s);
      forall i | 0 <= i < |s| - |r|
        ensures IsSpace(s[i])
      {
        if i > 0 {
          assert s[i] == s[1..][i - 1];
        }
      }
    }
  }

  /** `s.rstrip()` */
  function RStrip(s: string): (r: string)
    ensures |r| <= |s|
  {
    if s != [] && IsSpace(s[|s| - 1]) then RStrip(s[..|s| - 1]) else s
  }

  /** `rstrip()` keeps a prefix that does not end with whitespace and
      removes only whitespace. */
  lemma {:induction false} RStripSpec(s: string)
    ensures var r := RStrip(s);
            r == s[..|r|] &&
            (forall i :: |r| <= i < |s| ==> IsSpace(s[i])) &&
            (r != [] ==> !IsSpace(r[|r| - 1]))
  {
    if s != [] && IsSpace(s[|s| - 1]) {
      RStripSpec(s[..|s| - 1]);
      var r := RStrip(s);
      forall i | |r| <= i < |s|
        ensures IsSpace(s[i])
      {
        if i < |s| - 1 {
          assert s[i] == s[..|s| - 1][i];
        }
      }
    }
  }

  /** How many characters `s.strip()` removes from the front of `s`. */
  function StripStart(s: string): nat
  {
    |s| - |LStrip(s)|
  }

  /** `r`, cut from the front of `l`, which is itself a suffix of `s`, is
      the slice of `s` starting where `l` does. */
  lemma StripSlices(s: string, l: string, r: string)
    requires |l| <= |s| && l == s[|s| - |l|..]
    requires |r| <= |l| && r == l[..|r|]
    ensures r == s[|s| - |l|..|s| - |l| + |r|]
    ensures forall i :: |s| - |l| + |r| <= i < |s| ==> s[i] == l[i - (|s| - |l|)]
  {
  }

  /** `s.strip()`: `s` without its leading and trailing whitespace. */
  function Strip(s: string): (r: string)
    ensures |r| <= |s|
  {
    RStrip(LStrip(s))
  }

  /** `strip()` keeps the slice of `s` between its leading and its trailing
      whitespace, and that slice neither starts nor ends with whitespace. */
  lemma StripSpec(s: string)
    ensures var r, k := Strip(s), StripStart(s);
            k + |r| <= |s| &&
            r == s[k..k + |r|] &&
            (forall i :: 0 <= i < k ==> IsSpace(s[i])) &&
            (forall i :: k + |r| <= i < |s| ==> IsSpace(s[i])) &&
            (r != [] ==> !IsSpace(r[0]) && !IsSpace(r[|r| - 1]))
  {
    var l := LStrip(s);
    var r := RStrip(l);
    LStripSpec(s);
    RStripSpec(l);
    StripSlices(s, l, r);
    var k := StripStart(s);
    assert r != [] ==> r[0] == l[0];
  }

  /** A string with no whitespace at either end is its own `strip()`. */
  lemma StripUnchanged(s: string)
    requires s == [] || (!IsSpace(s[0]) && !IsSpace(s[|s| - 1]))
    ensures Strip(s) == s
  {
  }

  /** Leading whitespace in front of a string that starts with a
      non-space character is what `lstrip()` removes. */
  lemma {:induction false} LStripSpaces(l: string, t: string)
    requires forall i :: 0 <= i < |l| ==> IsSpace(l[i])
    requires t != [] && !IsSpace(t[0])
    ensures LStrip(l + t) == t
  {
    if l == [] {
      assert l + t == t;
    } else {
      assert (l + t)[1..] == l[1..] + t;
      LStripSpaces(l[1..], t);
    }
  }

  /** Trailing whitespace after a string that ends with a non-space
      character is what `rstrip()` removes. */
  lemma {:induction false} RStripSpaces(t: string, r: string)
    requires forall i :: 0 <= i < |r| ==> IsSpace(r[i])
    requires t != [] && !IsSpace(t[|t| - 1])
    ensures RStrip(t + r) == t
  {
    if r == [] {
      assert t + r == t;
    } else {
      assert (t + r)[..|t + r| - 1] == t + r[..|r| - 1];
      RStripSpaces(t, r[..|r| - 1]);
    }
  }

  /** `strip()` removes exactly the whitespace padding around `s`. */
  lemma StripAround(l: string, s: string, r: string)
    requires forall i :: 0 <= i < |l| ==> IsSpace(l[i])
    requires forall i :: 0 <= i < |r| ==> IsSpace(r[i])
    requires s != [] && !IsSpace(s[0]) && !IsSpace(s[|s| - 1])
    ensures Strip(l + s + r) == s
  {
    assert l + s + r == l + (s + r);
    LStripSpaces(l, s + r);
    RStripSpaces(s, r);
  }

  /** `s.startswith(p)` */
  predicate StartsWith(s: string, p: string) {
    |p| <= |s| && s[..|p|] == p
  }

  /** `p` occurs in `s` at index `k`. */
  predicate OccursAt(s: string, p: string, k: int) {
    0 <= k && k + |p| <= |s| && s[k..k + |p|] == p
  }

  /** The first index at or after `i` where `p` occurs in `s`, or -1. */
  function FindFrom(s: string, p: string, i: nat): (k: int)
    ensures k == -1 || (i <= k && OccursAt(s, p, k))
    ensures forall j {:trigger OccursAt(s, p, j)} :: i <= j && (k == -1 || j < k) ==> !OccursAt(s, p, j)
    decreases |s| - i
  {
    if i + |p| > |s| then -1
    else if OccursAt(s, p, i) then i
    else FindFrom(s, p, i + 1)
  }

  /** `s.find(p)`: the first index where `p` occurs in `s`, or -1. */
  function Find(s: string, p: string): (k: int)
    ensures k == -1 || OccursAt(s, p, k)
    ensures forall j {:trigger OccursAt(s, p, j)} :: 0 <= j && (k == -1 || j < k) ==> !OccursAt(s, p, j)
  {
    FindFrom(s, p, 0)
  }

  /** An occurrence at the very start is the one `find` reports. */
  lemma FindPrefix(s: string, p: string)
    requires StartsWith(s, p)
    ensures Find(s, p) == 0
  {
    assert OccursAt(s, p, 0);
  }

  /** `s.replace(p, '', 1)`: drop the first occurrence of `p`, if any.
      With an empty `p`, CPython inserts the empty replacement once at the
      front, which leaves `s` as it is. */
  function RemoveFirst(s: string, p: string): (r: string)
  {
    var k := Find(s, p);
    if k < 0 then s else s[..k] + s[k + |p|..]
  }

  /** When `s` starts with `p`, removing the first `p` removes that prefix. */
  lemma RemoveFirstPrefix(s: string, p: string)
    requires StartsWith(s, p)
    ensures RemoveFirst(s, p) == s[|p|..]
  {
    FindPrefix(s, p);
  }

  /** `s.replace(p, '')`: drop every occurrence of `p`, scanning left to right
      without overlaps. An empty `p` leaves `s` as it is. */
  function RemoveAll(s: string, p: string): (r: string)
    ensures |r| <= |s|
    ensures Find(s, p) == -1 ==> r == s
    decreases |s|
  {
    if p == [] then s
    else
      var k := Find(s, p);
      if k < 0 then s else s[..k] + RemoveAll(s[k + |p|..], p)
  }

  /** Removing every `p` from `p + p` leaves nothing. */
  lemma RemoveAllDoubled(p: string)
    ensures RemoveAll(p + p, p) == ""
  {
    if p != [] {
      var pp := p + p;
      assert pp[..|p|] == p;
      FindPrefix(pp, p);
      assert pp[|p|..] == p;
      assert p[..|p|] == p;
      FindPrefix(p, p);
      assert p[|p|..] == [];
      assert Find([], p) == -1;
    }
  }

  /** `s.replace(c, t)` for a one-character pattern `c`. */
  function ReplaceChar(s: string, c: char, t: string): (r: string)
    ensures c !in s ==> r == s
  {
    if s == [] then []
    else (if s[0] == c then t else [s[0]]) + ReplaceChar(s[1..], c, t)
  }

  /** Every character of `s.replace(c, t)` is a character of `s` other than
      `c`, or a character of `t`. */
  lemma {:induction false} ReplaceCharChars(s: string, c: char, t: string)
    ensures forall d {:trigger d in ReplaceChar(s, c, t)} ::
              d in ReplaceChar(s, c, t) ==> (d in s && d != c) || d in t
  {
    if s != [] {
      ReplaceCharChars(s[1..], c, t);
      forall d | d in ReplaceChar(s, c, t)
        ensures (d in s && d != c) || d in t
      {
        var head := if s[0] == c then t else [s[0]];
        assert ReplaceChar(s, c, t) == head + ReplaceChar(s[1..], c, t);
        if d !in head {
          assert d in ReplaceChar(s[1..], c, t);
          assert d in s[1..] ==> d in s;
        }
      }
    }
  }

  /** `ReplaceChar` works piece by piece. */
  lemma {:induction false} ReplaceCharConcat(a: string, b: string, c: char, t: string)
    ensures ReplaceChar(a + b, c, t) == ReplaceChar(a, c, t) + ReplaceChar(b, c, t)
  {
    if a != [] {
      assert (a + b)[1..] == a[1..] + b;
      ReplaceCharConcat(a[1..], b, c, t);
    } else {
      assert a + b == b;
    }
  }

  /** Replacing at the first occurrence of `c`: everything before it is
      kept, the occurrence becomes `t`, and the rest is replaced in turn. */
  lemma ReplaceCharAt(a: string, c: char, b: string, t: string)
    requires c !in a
    ensures ReplaceChar(a + [c] + b, c, t) == a + t + ReplaceChar(b, c, t)
  {
    var cb := [c] + b;
    assert a + [c] + b == a + cb;
    ReplaceCharConcat(a, cb, c, t);
    assert cb[0] == c && cb[1..] == b;
    assert ReplaceChar(cb, c, t) == t + ReplaceChar(b, c, t);
    assert ReplaceChar(a, c, t) == a;
  }

  /** A text holding `c` exactly once has that one occurrence replaced. */
  lemma ReplaceCharOnce(s: string, a: string, c: char, b: string, t: string, r: string)
    requires s == a + [c] + b && c !in a && c !in b && r == a + t + b
    ensures ReplaceChar(s, c, t) == r
  {
    ReplaceCharAt(a, c, b, t);
  }

  /** `ReplaceChar` of a concatenation, from the replacements of its parts. */
  lemma ReplaceCharJoin(a: string, b: string, c: char, t: string, ra: string, rb: string)
    requires ReplaceChar(a, c, t) == ra && ReplaceChar(b, c, t) == rb
    ensures ReplaceChar(a + b, c, t) == ra + rb
  {
    ReplaceCharConcat(a, b, c, t);
  }

  /** A one-character string equal to the pattern becomes the replacement. */
  lemma ReplaceCharSingle(c: char, t: string)
    ensures ReplaceChar([c], c, t) == t
  {
    assert [c][1..] == [];
  }

  /** `c.lower()` for ASCII letters; every other character is kept. */
  function LowerChar(c: char): char {
    if 'A' <= c <= 'Z' then (c as int + 32) as char else c
  }

  /** `s.lower()`, lowering ASCII letters only. */
  function Lower(s: string): (r: string)
    ensures |r| == |s|
  {
    if s == [] then [] else [LowerChar(s[0])] + Lower(s[1..])
  }

  /** `lower()` works character by character. */
  lemma {:induction false} LowerAt(s: string, i: nat)
    requires i < |s|
    ensures Lower(s)[i] == LowerChar(s[i])
    decreases |s|
  {
    if i > 0 {
      LowerAt(s[1..], i - 1);
    }
  }
}
