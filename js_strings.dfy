// The few JavaScript string operations the page logic relies on:
// `String.prototype.trim`, the regular-expression class `\s`, and
// `String.prototype.split` with the one-character separator ".".
//
// JavaScript strings are sequences of UTF-16 code units. Here a string is a
// sequence of Unicode scalar values. Every character that `trim` and `\s`
// treat as white space lies in the Basic Multilingual Plane, so the two
// views agree on it.
module JsStrings {

  /** The characters `trim` removes and `\s` matches: the WhiteSpace and
      LineTerminator productions of ECMAScript (TAB, VT, FF, SP, NBSP,
      ZWNBSP, every space separator, LF, CR, LS, PS). */
  predicate IsWhitespace(c: char) {
    c == '\t' || c == '\n' || c == '\U{000B}' || c == '\U{000C}' || c == '\r'
    || c == ' ' || c == '\U{00A0}' || c == '\U{1680}'
    || ('\U{2000}' <= c <= '\U{200A}')
    || c == '\U{2028}' || c == '\U{2029}' || c == '\U{202F}' || c == '\U{205F}'
    || c == '\U{3000}' || c == '\U{FEFF}'
  }

  /** `s` matches `\s*`. */
  predicate AllWhitespace(s: string) {
    forall i | 0 <= i < |s| :: IsWhitespace(s[i])
  }

  /** `s` neither starts nor ends with white space. */
  predicate Tight(s: string) {
    s == [] || (!IsWhitespace(s[0]) && !IsWhitespace(s[|s| - 1]))
  }

  /** Where the white space that ends `s[..hi]` begins, looking no further
      back than `lo`. */
  function TrailingStart(s: string, lo: nat, hi: nat): (m: nat)
    requires lo <= hi <= |s|
    ensures lo <= m <= hi
    ensures forall i | m <= i < hi :: IsWhitespace(s[i])
    ensures m == lo || !IsWhitespace(s[m - 1])
    decreases hi
  {
    if hi > lo && IsWhitespace(s[hi - 1]) then TrailingStart(s, lo, hi - 1) else hi
  }

  /** The first position from `lo` on that holds no white space, or |s|. */
  function LeadingEnd(s: string, lo: nat): (m: nat)
    requires lo <= |s|
    ensures lo <= m <= |s|
    ensures forall i | lo <= i < m :: IsWhitespace(s[i])
    ensures m == |s| || !IsWhitespace(s[m])
    decreases |s| - lo
  {
    if lo < |s| && IsWhitespace(s[lo]) then LeadingEnd(s, lo + 1) else lo
  }

  /** `s` with its trailing white space removed (`trimEnd`). */
  function TrimEnd(s: string): (r: string)
    ensures |r| <= |s| && r == s[..|r|]
    ensures AllWhitespace(s[|r|..])
    ensures r == [] || !IsWhitespace(r[|r| - 1])
  {
    s[..TrailingStart(s, 0, |s|)]
  }

  /** `s.trim()`: `s` without the white space at either end. */
  function Trim(s: string): (r: string)
    ensures |r| <= |s| && Tight(r)
  {
    var start := LeadingEnd(s, 0);
    s[start..TrailingStart(s, start, |s|)]
  }

  /** What Trim returns is a slice of `s` with nothing but white space on
      either side of it. */
  lemma TrimSound(s: string)
    ensures var r := Trim(s);
            exists k :: 0 <= k <= |s| - |r| && r == s[k..k + |r|]
                        && AllWhitespace(s[..k]) && AllWhitespace(s[k + |r|..])
  {
    var k := LeadingEnd(s, 0);
    var e := TrailingStart(s, k, |s|);
    assert Trim(s) == s[k..e];
    assert AllWhitespace(s[..k]) && AllWhitespace(s[e..]);
  }

  /** The backward scan stops at the first position (from the end) that
      follows a non-white-space character. */
  lemma {:induction false} TrailingStartStops(s: string, lo: nat, hi: nat, m: nat)
    requires lo <= m <= hi <= |s|
    requires m == lo || !IsWhitespace(s[m - 1])
    requires forall i | m <= i < hi :: IsWhitespace(s[i])
    ensures TrailingStart(s, lo, hi) == m
    decreases hi
  {
    if hi > m {
      TrailingStartStops(s, lo, hi - 1, m);
    }
  }

  /** The forward scan stops at the first non-white-space character. */
  lemma {:induction false} LeadingEndStops(s: string, lo: nat, m: nat)
    requires lo <= m <= |s|
    requires m == |s| || !IsWhitespace(s[m])
    requires forall i | lo <= i < m :: IsWhitespace(s[i])
    ensures LeadingEnd(s, lo) == m
    decreases m - lo
  {
    if lo < m {
      LeadingEndStops(s, lo + 1, m);
    }
  }

  /** Trailing white space is exactly what TrimEnd removes. */
  lemma TrimEndPadded(t: string, ws: string)
    requires t == [] || !IsWhitespace(t[|t| - 1])
    requires AllWhitespace(ws)
    ensures TrimEnd(t + ws) == t
  {
    var s := t + ws;
    assert forall i | |t| <= i < |s| :: s[i] == ws[i - |t|];
    TrailingStartStops(s, 0, |s|, |t|);
    assert s[..|t|] == t;
  }

  /** Trimming recovers a text that has no white space at its ends from any
      padding around it. */
  lemma TrimPadded(before: string, t: string, after: string)
    requires AllWhitespace(before) && AllWhitespace(after) && Tight(t)
    ensures Trim(before + t + after) == t
  {
    var s := before + t + after;
    var n := |before| + |t|;
    assert forall i | 0 <= i < |before| :: s[i] == before[i];
    assert forall i | n <= i < |s| :: s[i] == after[i - n];
    if t == [] {
      LeadingEndStops(s, 0, |s|);
    } else {
      assert s[|before|] == t[0] && s[n - 1] == t[|t| - 1];
      LeadingEndStops(s, 0, |before|);
      TrailingStartStops(s, |before|, |s|, n);
      assert s[|before|..n] == t;
    }
  }

  /** Trimming is idempotent. */
  lemma TrimIdempotent(s: string)
    ensures Trim(Trim(s)) == Trim(s)
  {
    var r := Trim(s);
    assert [] + r + [] == r;
    TrimPadded([], r, []);
  }

  /** The segments of a path joined back with "." (the inverse of Split). */
  function Join(parts: seq<string>): string
    requires |parts| >= 1
    decreases |parts|
  {
    if |parts| == 1 then parts[0] else parts[0] + "." + Join(parts[1..])
  }

  /** No segment contains the separator. */
  predicate DotFree(parts: seq<string>) {
    forall i | 0 <= i < |parts| :: '.' !in parts[i]
  }

  /** `s.split('.')`: the maximal dot-free runs of `s`, in order. An empty
      string gives one empty segment and two adjacent dots give an empty
      segment between them. */
  function Split(s: string): (parts: seq<string>)
    ensures |parts| >= 1
    ensures DotFree(parts)
    ensures Join(parts) == s
    decreases |s|
  {
    if s == [] then [""]
    else
      var rest := Split(s[1..]);
      if s[0] == '.' then
        assert Join([""] + rest) == "" + "." + Join(rest);
        [""] + rest
      else
        var parts := [[s[0]] + rest[0]] + rest[1..];
        assert '.' !in parts[0];
        JoinConsHead(s[0], rest);
        parts
  }

  /** Prepending a character to the first segment prepends it to the joined
      string. */
  lemma JoinConsHead(c: char, parts: seq<string>)
    requires |parts| >= 1
    ensures Join([[c] + parts[0]] + parts[1..]) == [c] + Join(parts)
  {
    var q := [[c] + parts[0]] + parts[1..];
    if |parts| == 1 {
      assert Join(q) == q[0];
    } else {
      assert q[1..] == parts[1..];
      ConsBeforeDot(c, parts[0], Join(parts[1..]));
    }
  }

  lemma ConsBeforeDot(c: char, p: string, rest: string)
    ensures ([c] + p) + "." + rest == [c] + (p + "." + rest)
  {
  }

  /** Split undoes Join on dot-free segments, so Split and Join are
      inverse bijections between strings and non-empty dot-free segment
      lists. */
  lemma {:induction false} SplitJoin(parts: seq<string>)
    requires |parts| >= 1 && DotFree(parts)
    ensures Split(Join(parts)) == parts
    decreases |parts|, |parts[0]|
  {
    var head := parts[0];
    if head == [] {
      if |parts| > 1 {
        assert Join(parts) == "." + Join(parts[1..]);
        assert DotFree(parts[1..]) by {
          forall i | 0 <= i < |parts[1..]| ensures '.' !in parts[1..][i] {
            assert parts[1..][i] == parts[i + 1];
          }
        }
        SplitJoin(parts[1..]);
        assert ("." + Join(parts[1..]))[1..] == Join(parts[1..]);
        assert [""] + parts[1..] == parts;
      }
    } else {
      var tail := [head[1..]] + parts[1..];
      assert DotFree(tail) by {
        forall i | 0 <= i < |tail| ensures '.' !in tail[i] {
          if i == 0 {
            assert forall c | c in head[1..] :: c in head;
          } else {
            assert tail[i] == parts[i];
          }
        }
      }
      assert tail[1..] == parts[1..];
      JoinConsHead(head[0], tail);
      assert [head[0]] + head[1..] == head;
      assert [[head[0]] + tail[0]] + tail[1..] == parts;
      assert Join(parts) == [head[0]] + Join(tail);
      SplitJoin(tail);
      assert (([head[0]] + Join(tail))[1..]) == Join(tail);
      assert head[0] in head;
    }
  }

  /** Joining the segments of two lists is joining the two joins. */
  lemma {:induction false} JoinAppend(a: seq<string>, b: seq<string>)
    requires |a| >= 1 && |b| >= 1
    ensures Join(a + b) == Join(a) + "." + Join(b)
    decreases |a|
  {
    if |a| == 1 {
      assert (a + b)[1..] == b;
    } else {
      assert (a + b)[1..] == a[1..] + b;
      JoinAppend(a[1..], b);
    }
  }

  /** Splitting `p + "." + q` splits `p` and `q` separately. */
  lemma SplitAtDot(p: string, q: string)
    ensures Split(p + "." + q) == Split(p) + Split(q)
  {
    var a, b := Split(p), Split(q);
    JoinAppend(a, b);
    DotFreeAppend(a, b);
    SplitJoin(a + b);
  }

  lemma DotFreeAppend(a: seq<string>, b: seq<string>)
    requires DotFree(a) && DotFree(b)
    ensures DotFree(a + b)
  {
    forall i | 0 <= i < |a + b| ensures '.' !in (a + b)[i] {
      if i < |a| { assert (a + b)[i] == a[i]; } else { assert (a + b)[i] == b[i - |a|]; }
    }
  }

  /** A dot-free string is a single segment. */
  lemma SplitDotFree(s: string)
    requires '.' !in s
    ensures Split(s) == [s]
  {
    SplitJoin([s]);
  }
}
