/** Python string operations the scripts rely on: whitespace, `strip`, `in`,
    `startswith`, `replace(p, '')` and ordered searches over lists of names. */
module Text {
  import opened Wrappers

  /** `str.isspace()` on one character; `strip()` and the regex class `\s` use the same set. */
  predicate IsSpace(c: char) {
    || ('\t' <= c <= '\r')
    || ('\U{1C}' <= c <= '\U{1F}')
    || c == ' '
    || c == '\U{85}'
    || c == '\U{A0}'
    || c == '\U{1680}'
    || ('\U{2000}' <= c <= '\U{200A}')
    || c == '\U{2028}'
    || c == '\U{2029}'
    || c == '\U{202F}'
    || c == '\U{205F}'
    || c == '\U{3000}'
  }

  /** No character of `s` is whitespace. */
  predicate NoSpace(s: string) {
    forall k :: 0 <= k < |s| ==> !IsSpace(s[k])
  }

  /** The number of whitespace characters `s` starts with. */
  function LeadingSpaces(s: string): (n: nat)
    ensures n <= |s|
    ensures forall k :: 0 <= k < n ==> IsSpace(s[k])
    ensures n < |s| ==> !IsSpace(s[n])
  {
    if |s| > 0 && IsSpace(s[0]) then 1 + LeadingSpaces(s[1..]) else 0
  }

  /** The number of whitespace characters `s` ends with. */
  function TrailingSpaces(s: string): (n: nat)
    ensures n <= |s|
    ensures forall k :: |s| - n <= k < |s| ==> IsSpace(s[k])
    ensures n < |s| ==> !IsSpace(s[|s| - n - 1])
  {
    if |s| > 0 && IsSpace(s[|s| - 1]) then 1 + TrailingSpaces(s[..|s| - 1]) else 0
  }

  /** `s.lstrip()`: the suffix of `s` left after dropping leading whitespace. */
  function StripLeft(s: string): (r: string)
    ensures r == [] || !IsSpace(r[0])
  {
    s[LeadingSpaces(s)..]
  }

  /** `s.rstrip()`: the prefix of `s` left after dropping trailing whitespace. */
  function StripRight(s: string): (r: string)
    ensures r == [] || !IsSpace(r[|r| - 1])
  {
    s[..|s| - TrailingSpaces(s)]
  }

  /** `s.strip()`: the piece of `s` between its leading and its trailing whitespace. It
      neither starts nor ends with whitespace, everything cut off is whitespace, and it is
      all of `s` when `s` has no whitespace at its ends. */
  function Strip(s: string): (r: string)
    ensures r == [] || (!IsSpace(r[0]) && !IsSpace(r[|r| - 1]))
    ensures StripStart(s) + |r| <= |s| && r == s[StripStart(s)..StripStart(s) + |r|]
    ensures StrippedAround(s, StripStart(s), StripStart(s) + |r|)
    ensures 0 < |s| && !IsSpace(s[0]) && !IsSpace(s[|s| - 1]) ==> r == s
  {
    StripParts(s);
    StripRight(StripLeft(s))
  }

  /** Text that neither starts nor ends with whitespace is left as it is. */
  lemma StripPlain(s: string)
    requires 0 < |s| && !IsSpace(s[0]) && !IsSpace(s[|s| - 1])
    ensures Strip(s) == s
  {
  }

  /** How the two halves of `strip()` fit together. */
  lemma StripParts(s: string)
    ensures var r := StripRight(StripLeft(s));
            && StripStart(s) + |r| <= |s| && r == s[StripStart(s)..StripStart(s) + |r|]
            && StrippedAround(s, StripStart(s), StripStart(s) + |r|)
  {
    var a := LeadingSpaces(s);
    var t := s[a..];
    assert StripLeft(s) == t;
    var n := |t| - TrailingSpaces(t);
    assert StripRight(t) == t[..n];
    SuffixPrefix(s, a, n);
    SpacesAfter(s, a, n);
  }

  /** A prefix of a suffix is a slice. */
  lemma SuffixPrefix(s: string, a: nat, n: nat)
    requires a + n <= |s|
    ensures s[a..][..n] == s[a..a + n]
  {
  }

  /** What `rstrip()` cuts off a suffix is whitespace in the whole text. */
  lemma SpacesAfter(s: string, a: nat, n: nat)
    requires a <= |s| && n == |s[a..]| - TrailingSpaces(s[a..])
    ensures forall k :: a + n <= k < |s| ==> IsSpace(s[k])
  {
    var t := s[a..];
    forall k | a + n <= k < |s| ensures IsSpace(s[k]) {
      assert t[k - a] == s[k];
    }
  }

  /** The number of leading whitespace characters `strip()` removes. */
  function StripStart(s: string): nat {
    LeadingSpaces(s)
  }

  /** Every character of `s` outside positions `i..j` is whitespace. */
  predicate StrippedAround(s: string, i: nat, j: nat)
    requires i <= j <= |s|
  {
    (forall k :: 0 <= k < i ==> IsSpace(s[k])) && (forall k :: j <= k < |s| ==> IsSpace(s[k]))
  }

  /** `s.startswith(p)`. */
  predicate StartsWith(s: string, p: string) {
    |p| <= |s| && s[..|p|] == p
  }

  /** `s.endswith(p)`. */
  predicate EndsWith(s: string, p: string) {
    |p| <= |s| && s[|s| - |p|..] == p
  }

  /** `p` occurs in `s` starting at position `i`. */
  predicate OccursAt(s: string, p: string, i: nat) {
    i + |p| <= |s| && s[i..i + |p|] == p
  }

  /** Python's `p in s` on strings: `p` occurs somewhere in `s`. */
  predicate Contains(s: string, p: string) {
    exists i: nat | i + |p| <= |s| :: OccursAt(s, p, i)
  }

  /** `s.replace(p, '')`: one left-to-right pass removing non-overlapping occurrences of `p`. */
  function RemoveAll(s: string, p: string): (r: string)
    requires p != []
    ensures |r| <= |s|
    decreases |s|
  {
    if s == [] then []
    else if StartsWith(s, p) then RemoveAll(s[|p|..], p)
    else [s[0]] + RemoveAll(s[1..], p)
  }

  /** A removal only drops characters: whatever is left comes from `s`, and removing a
      one-character pattern leaves none of that character. */
  lemma {:induction false} RemoveAllKeepsOthers(s: string, p: string)
    requires p != []
    ensures forall k :: 0 <= k < |RemoveAll(s, p)| ==> RemoveAll(s, p)[k] in s
    ensures |p| == 1 ==> forall k :: 0 <= k < |RemoveAll(s, p)| ==> RemoveAll(s, p)[k] != p[0]
    decreases |s|
  {
    if s == [] {
    } else if StartsWith(s, p) {
      RemoveAllKeepsOthers(s[|p|..], p);
      var r := RemoveAll(s, p);
      var t := s[|p|..];
      assert r == RemoveAll(t, p);
      forall k | 0 <= k < |r| ensures r[k] in s {
        assert r[k] in t;
        var j :| 0 <= j < |t| && t[j] == r[k];
        assert s[|p| + j] == r[k];
      }
    } else {
      RemoveAllKeepsOthers(s[1..], p);
      var r := RemoveAll(s, p);
      assert r == [s[0]] + RemoveAll(s[1..], p);
      forall k | 0 <= k < |r| ensures r[k] in s {
        if k > 0 {
          var t := s[1..];
          assert r[k] == RemoveAll(t, p)[k - 1];
          assert r[k] in t;
          var j :| 0 <= j < |t| && t[j] == r[k];
          assert s[1 + j] == r[k];
        }
      }
      if |p| == 1 {
        assert s[..|p|] == [s[0]];
      }
    }
  }

  /** Text without the first character of the pattern is left as it is. */
  lemma {:induction false} RemoveAllPlain(s: string, p: string)
    requires p != []
    requires forall k :: 0 <= k < |s| ==> s[k] != p[0]
    ensures RemoveAll(s, p) == s
    decreases |s|
  {
    if s != [] {
      RemoveAllPlainHead(s, p);
      RemoveAllPlain(s[1..], p);
    }
  }

  /** A removal keeps a first character that does not start the pattern. */
  lemma RemoveAllPlainHead(s: string, p: string)
    requires p != [] && s != [] && s[0] != p[0]
    ensures RemoveAll(s, p) == [s[0]] + RemoveAll(s[1..], p)
  {
    assert !StartsWith(s, p) by {
      if |p| <= |s| {
        assert s[..|p|][0] == s[0];
      }
    }
  }

  /** Text without the first character of the pattern passes through a removal untouched,
      whatever follows it. */
  lemma {:induction false} RemoveAllAfterPlain(a: string, b: string, p: string)
    requires p != []
    requires forall k :: 0 <= k < |a| ==> a[k] != p[0]
    ensures RemoveAll(a + b, p) == a + RemoveAll(b, p)
  {
    if a != [] {
      var ab := a + b;
      assert ab[0] == a[0] && ab[1..] == a[1..] + b;
      RemoveAllPlainHead(ab, p);
      RemoveAllAfterPlain(a[1..], b, p);
      assert [a[0]] + (a[1..] + RemoveAll(b, p)) == a + RemoveAll(b, p);
    } else {
      assert a + b == b;
    }
  }

  /** Removing a one-character pattern distributes over concatenation: no occurrence can
      straddle the seam. */
  lemma {:induction false} RemoveCharAppend(a: string, b: string, p: string)
    requires |p| == 1
    ensures RemoveAll(a + b, p) == RemoveAll(a, p) + RemoveAll(b, p)
  {
    if a == [] {
      assert a + b == b;
    } else {
      assert (a + b)[1..] == a[1..] + b;
      RemoveCharAppend(a[1..], b, p);
      if StartsWith(a, p) {
        assert StartsWith(a + b, p);
        assert (a + b)[|p|..] == a[|p|..] + b;
      } else {
        assert !StartsWith(a + b, p);
      }
    }
  }

  /** Removing a suffix from a text that does not hold its first character gives the text. */
  lemma RemoveSuffix(a: string, p: string)
    requires p != []
    requires forall k :: 0 <= k < |a| ==> a[k] != p[0]
    ensures RemoveAll(a + p, p) == a
  {
    RemoveAllAfterPlain(a, p, p);
    assert StartsWith(p, p);
    assert p[|p|..] == [];
    assert a + [] == a;
  }

  /** Removing a one-character pattern keeps every other character, so a string holding
      one is not emptied. */
  lemma {:induction false} RemoveCharKeeps(s: string, p: string, d: nat)
    requires |p| == 1 && d < |s| && s[d] != p[0]
    ensures RemoveAll(s, p) != []
  {
    if d == 0 {
      assert !StartsWith(s, p);
    } else if StartsWith(s, p) {
      RemoveCharKeeps(s[1..], p, d - 1);
    } else {
      assert RemoveAll(s, p)[0] == s[0];
    }
  }

  /** `re.sub(r'\s+', '', s)`: `s` with every whitespace character dropped. */
  function RemoveSpaces(s: string): (r: string)
    ensures NoSpace(r)
    ensures NoSpace(s) ==> r == s
  {
    if s == [] then [] else (if IsSpace(s[0]) then [] else [s[0]]) + RemoveSpaces(s[1..])
  }

  /** The number of occurrences of `c` in `s`. */
  function CountChar(s: string, c: char): nat {
    if s == [] then 0 else (if s[0] == c then 1 else 0) + CountChar(s[1..], c)
  }

  lemma {:induction false} CountCharAppend(a: string, b: string, c: char)
    ensures CountChar(a + b, c) == CountChar(a, c) + CountChar(b, c)
  {
    if a == [] {
      assert a + b == b;
    } else {
      assert (a + b)[1..] == a[1..] + b;
      CountCharAppend(a[1..], b, c);
    }
  }

  /** The first position of a name in `names` that occurs in `text`:
      a `for name in names: if name in text: ... break` search. */
  function FirstContained(names: seq<string>, text: string): (r: Option<nat>)
    ensures r.Some? ==> r.value < |names| && Contains(text, names[r.value])
    ensures r.Some? ==> forall j :: 0 <= j < r.value ==> !Contains(text, names[j])
    ensures r.None? ==> forall j :: 0 <= j < |names| ==> !Contains(text, names[j])
  {
    if names == [] then None
    else if Contains(text, names[0]) then Some(0)
    else match FirstContained(names[1..], text)
      case Some(k) => Some(k + 1)
      case None => None
  }

  /** `a in b or b in a`: one of the two strings occurs in the other. */
  predicate Overlaps(a: string, b: string) {
    Contains(b, a) || Contains(a, b)
  }

  /** The first position of a key in `keys` that overlaps `text`. */
  function FirstOverlapping(keys: seq<string>, text: string): (r: Option<nat>)
    ensures r.Some? ==> r.value < |keys| && Overlaps(keys[r.value], text)
    ensures r.Some? ==> forall j :: 0 <= j < r.value ==> !Overlaps(keys[j], text)
    ensures r.None? ==> forall j :: 0 <= j < |keys| ==> !Overlaps(keys[j], text)
  {
    if keys == [] then None
    else if Overlaps(keys[0], text) then Some(0)
    else match FirstOverlapping(keys[1..], text)
      case Some(k) => Some(k + 1)
      case None => None
  }

  /** A text framed by a head and a tail starts with the head and ends with the tail. */
  lemma Framed(h: string, b: string, f: string)
    ensures StartsWith(h + b + f, h) && EndsWith(h + b + f, f)
  {
    assert (h + b + f)[..|h|] == h;
    assert (h + b + f)[|h + b + f| - |f|..] == f;
  }

  /** The lines `line(x)` of the items `xs`, one after another. */
  function Joined<T>(xs: seq<T>, line: T -> string): string {
    if xs == [] then [] else Joined(xs[..|xs| - 1], line) + line(xs[|xs| - 1])
  }

  lemma {:induction false} JoinedAppend<T>(a: seq<T>, b: seq<T>, line: T -> string)
    ensures Joined(a + b, line) == Joined(a, line) + Joined(b, line)
    decreases |b|
  {
    if b == [] {
      assert a + b == a;
    } else {
      var init := b[..|b| - 1];
      assert (a + b)[..|a + b| - 1] == a + init;
      assert (a + b)[|a + b| - 1] == b[|b| - 1];
      JoinedAppend(a, init, line);
    }
  }

  /** A slice is the concatenation of its two halves at any cut. */
  lemma SliceSplit(s: string, i: nat, j: nat, k: nat)
    requires i <= j <= k <= |s|
    ensures s[i..k] == s[i..j] + s[j..k]
  {
    assert s[i..k] == s[i..j] + s[j..k];
  }
}
