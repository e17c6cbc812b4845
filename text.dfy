/**
 * The Python string operations the orchestrator relies on, with their
 * exact semantics: prefix and suffix tests, substring search, stripping,
 * ASCII lower-casing, and str.splitlines / "\n".join.
 */
module Text {

  predicate StartsWith(s: string, p: string) {
    |p| <= |s| && s[..|p|] == p
  }

  predicate EndsWith(s: string, p: string) {
    |p| <= |s| && s[|s| - |p|..] == p
  }

  /** Python's `t in s`. */
  predicate Contains(s: string, t: string) {
    exists i | 0 <= i <= |s| :: StartsWith(s[i..], t)
  }

  lemma ContainsAt(s: string, t: string, i: nat)
    requires i <= |s| && StartsWith(s[i..], t)
    ensures Contains(s, t)
  {
  }

  /** A text made of four parts starts with the first and ends with the last two. */
  lemma Affixes(a: string, b: string, c: string, d: string)
    ensures StartsWith(a + b + c + d, a) && EndsWith(a + b + c + d, c + d)
  {
    var s := a + b + c + d;
    assert s[..|a|] == a;
    assert s[|s| - |c + d|..] == c + d;
  }

  /** Appending the same text to both sides keeps a suffix a suffix. */
  lemma EndsWithExtend(s: string, p: string, c: string)
    requires EndsWith(s, p)
    ensures EndsWith(s + c, p + c)
  {
    assert (s + c)[|s + c| - |p + c|..] == s[|s| - |p|..] + c;
  }

  /** Removes every trailing `c`: Python's `s.rstrip(c)` for a one-character argument. */
  function RStripChar(s: string, c: char): (r: string)
    ensures |r| <= |s| && r == s[..|r|]
    ensures r == [] || r[|r| - 1] != c
    ensures forall i :: |r| <= i < |s| ==> s[i] == c
  {
    if |s| > 0 && s[|s| - 1] == c then RStripChar(s[..|s| - 1], c) else s
  }

  /** Removes every leading `c`: Python's `s.lstrip(c)`. */
  function LStripChar(s: string, c: char): (r: string)
    ensures |r| <= |s| && r == s[|s| - |r|..]
    ensures r == [] || r[0] != c
    ensures forall i :: 0 <= i < |s| - |r| ==> s[i] == c
  {
    if |s| > 0 && s[0] == c then LStripChar(s[1..], c) else s
  }

  /**
   * `r` is what `s.strip(c)` leaves: the slice of `s` that starts after its
   * leading `c`s, with only `c`s before and after it.
   */
  predicate StripsTo(s: string, r: string, c: char) {
    var lead := |s| - |LStripChar(s, c)|;
    lead + |r| <= |s| && r == s[lead..lead + |r|]
    && (forall i :: 0 <= i < lead ==> s[i] == c)
    && (forall i :: lead + |r| <= i < |s| ==> s[i] == c)
  }

  /** Python's `s.strip(c)`. */
  function StripChar(s: string, c: char): (r: string)
    ensures r == [] || (r[0] != c && r[|r| - 1] != c)
    ensures StripsTo(s, r, c)
  {
    var l := LStripChar(s, c);
    StripCharSlice(s, l, RStripChar(l, c), c);
    RStripChar(l, c)
  }

  /** Cutting `c`s off the front, then off the back, leaves a slice with only `c`s around it. */
  lemma StripCharSlice(s: string, l: string, r: string, c: char)
    requires l == LStripChar(s, c)
    requires |r| <= |l| && r == l[..|r|] && (forall i :: |r| <= i < |l| ==> l[i] == c)
    ensures StripsTo(s, r, c)
  {
    var lead := |s| - |l|;
    forall i | lead + |r| <= i < |s|
      ensures s[i] == c
    {
      assert s[i] == l[i - lead];
    }
  }

  /** The characters for which Python's str.isspace() holds, which str.strip() removes. */
  predicate IsSpace(ch: char) {
    var n := ch as int;
    (0x09 <= n <= 0x0D) || (0x1C <= n <= 0x20) || n == 0x85 || n == 0xA0 || n == 0x1680
    || (0x2000 <= n <= 0x200A) || n == 0x2028 || n == 0x2029 || n == 0x202F || n == 0x205F || n == 0x3000
  }

  function RStripSpace(s: string): (r: string)
    ensures |r| <= |s| && r == s[..|r|]
    ensures r == [] || !IsSpace(r[|r| - 1])
  {
    if |s| > 0 && IsSpace(s[|s| - 1]) then RStripSpace(s[..|s| - 1]) else s
  }

  function LStripSpace(s: string): (r: string)
    ensures |r| <= |s| && r == s[|s| - |r|..]
    ensures r == [] || !IsSpace(r[0])
  {
    if |s| > 0 && IsSpace(s[0]) then LStripSpace(s[1..]) else s
  }

  lemma {:induction false} RStripSpaceAfter(p: string, v: string)
    requires p != [] && !IsSpace(p[|p| - 1])
    ensures RStripSpace(p + v) == p + RStripSpace(v)
    decreases |v|
  {
    if v == [] {
      assert p + v == p;
    } else if IsSpace(v[|v| - 1]) {
      assert (p + v)[..|p + v| - 1] == p + v[..|v| - 1];
      RStripSpaceAfter(p, v[..|v| - 1]);
    }
  }

  /** Python's `s.strip()`. */
  function StripSpace(s: string): string {
    RStripSpace(LStripSpace(s))
  }

  function AsciiLower(ch: char): char {
    if 'A' <= ch <= 'Z' then (ch as int + 32) as char else ch
  }

  /**
   * Python's `s.lower()` restricted to ASCII letters. No non-ASCII character
   * lower-cases to an ASCII letter other than 'k' (KELVIN SIGN) and 'i'
   * (the dotted capital I, which lower-cases to two characters), so a
   * comparison of the result with "true" is decided exactly.
   */
  function Lower(s: string): (r: string)
    ensures |r| == |s|
    ensures forall i :: 0 <= i < |s| ==> r[i] == AsciiLower(s[i])
  {
    if s == [] then [] else [AsciiLower(s[0])] + Lower(s[1..])
  }

  /** The characters Python's str.splitlines breaks at ("\r\n" counts as one boundary). */
  const LineBreaks: set<char> := {'\n', '\U{0B}', '\U{0C}', '\r', '\U{1C}', '\U{1D}', '\U{1E}', '\U{85}', '\U{2028}', '\U{2029}'}

  /** The line boundaries of Python's str.splitlines ("\r\n" counts as one). */
  predicate IsLineBoundary(ch: char) {
    ch in LineBreaks
  }

  predicate NoLineBoundary(s: string) {
    forall i :: 0 <= i < |s| ==> !IsLineBoundary(s[i])
  }

  /** Text whose only line boundary is '\n'. */
  predicate NewlineOnly(s: string) {
    forall i :: 0 <= i < |s| ==> IsLineBoundary(s[i]) ==> s[i] == '\n'
  }

  function FirstBoundary(s: string): (i: nat)
    ensures i <= |s|
    ensures i < |s| ==> IsLineBoundary(s[i])
    ensures forall j :: 0 <= j < i ==> !IsLineBoundary(s[j])
  {
    BoundaryFrom(s, 0)
  }

  /** The first line boundary at or after position `j`, or |s| when there is none. */
  function BoundaryFrom(s: string, j: nat): (i: nat)
    requires j <= |s|
    ensures j <= i <= |s|
    ensures i < |s| ==> IsLineBoundary(s[i])
    ensures forall k :: j <= k < i ==> !IsLineBoundary(s[k])
    decreases |s| - j
  {
    if j == |s| || IsLineBoundary(s[j]) then j else BoundaryFrom(s, j + 1)
  }

  /** The length of the line break at `i`: two for "\r\n", otherwise one. */
  function BreakWidth(s: string, i: nat): (w: nat)
    requires i < |s|
    ensures 1 <= w && i + w <= |s|
  {
    if s[i] == '\r' && i + 1 < |s| && s[i + 1] == '\n' then 2 else 1
  }

  /** Python's `s.splitlines()`: the lines without their breaks, no empty line after a final break. */
  function SplitLines(s: string): (lines: seq<string>)
    ensures forall l :: l in lines ==> NoLineBoundary(l)
    ensures s != [] <==> lines != []
    decreases |s|
  {
    if s == [] then []
    else
      var i := FirstBoundary(s);
      if i == |s| then [s]
      else [s[..i]] + SplitLines(s[i + BreakWidth(s, i)..])
  }

  /** Python's `"\n".join(lines)`. */
  function Join(lines: seq<string>): string {
    if |lines| == 0 then ""
    else if |lines| == 1 then lines[0]
    else lines[0] + "\n" + Join(lines[1..])
  }

  lemma {:induction false} JoinAppend(a: seq<string>, x: string)
    requires a != []
    ensures Join(a + [x]) == Join(a) + "\n" + x
    decreases |a|
  {
    if |a| == 1 {
      assert (a + [x])[1..] == [x];
    } else {
      assert (a + [x])[1..] == a[1..] + [x];
      JoinAppend(a[1..], x);
    }
  }

  lemma FirstBoundaryAfter(x: string, y: string)
    requires NoLineBoundary(x)
    ensures FirstBoundary(x + "\n" + y) == |x|
  {
    var s := x + "\n" + y;
    var i := FirstBoundary(s);
    assert s[|x|] == '\n';
  }

  /** Joining clean lines, terminating the last one, and splitting again gives the lines back. */
  lemma {:induction false} SplitJoin(lines: seq<string>)
    requires lines != []
    requires forall l :: l in lines ==> NoLineBoundary(l)
    ensures SplitLines(Join(lines) + "\n") == lines
    decreases |lines|
  {
    var x := lines[0];
    if |lines| == 1 {
      var s := x + "\n";
      FirstBoundaryAfter(x, "");
      assert x + "\n" + "" == s;
      SplitHead(s, |x|, |x| + 1);
      assert s[..|x|] == x;
      assert s[|x| + 1..] == [];
    } else {
      var rest := lines[1..];
      assert forall l :: l in rest ==> l in lines;
      SplitJoin(rest);
      SplitJoinStep(x, rest);
      assert [x] + rest == lines;
    }
  }

  /** One line of SplitJoin: a clean first line, then lines that already split back. */
  lemma SplitJoinStep(x: string, rest: seq<string>)
    requires NoLineBoundary(x) && rest != []
    requires SplitLines(Join(rest) + "\n") == rest
    ensures SplitLines(Join([x] + rest) + "\n") == [x] + rest
  {
    var tail := Join(rest) + "\n";
    var s := Join([x] + rest) + "\n";
    JoinCons(x, rest);
    assert s == x + "\n" + tail;
    FirstBoundaryAfter(x, tail);
    SplitHead(s, |x|, |x| + 1);
    assert s[..|x|] == x;
    assert s[|x| + 1..] == tail;
  }

  lemma NewlineOnlySuffix(u: string, k: nat)
    requires k <= |u| && NewlineOnly(u)
    ensures NewlineOnly(u[k..])
  {
    forall j | 0 <= j < |u| - k ensures IsLineBoundary(u[k..][j]) ==> u[k..][j] == '\n' {
      assert u[k..][j] == u[k + j];
    }
  }

  /** What JoinSplit asks of its input, kept by a proper suffix. */
  lemma TerminatedSuffix(u: string, k: nat)
    requires k < |u| && NewlineOnly(u) && u[|u| - 1] == '\n'
    ensures u[k..] != [] && NewlineOnly(u[k..]) && u[k..][|u[k..]| - 1] == '\n'
  {
    NewlineOnlySuffix(u, k);
  }

  /** In '\n'-only text that ends with '\n', the first break is a single '\n'. */
  lemma FirstBreakIsNewline(u: string)
    requires u != [] && NewlineOnly(u) && u[|u| - 1] == '\n'
    ensures FirstBoundary(u) < |u| && u[FirstBoundary(u)] == '\n'
    ensures BreakWidth(u, FirstBoundary(u)) == 1
  {
    assert IsLineBoundary(u[|u| - 1]);
  }

  /** Splitting text whose last break is a '\n' and joining the lines back loses nothing. */
  lemma {:induction false} JoinSplit(u: string)
    requires u != [] && NewlineOnly(u) && u[|u| - 1] == '\n'
    ensures Join(SplitLines(u)) + "\n" == u
    decreases |u|
  {
    FirstBreakIsNewline(u);
    var i := FirstBoundary(u);
    if i + 1 == |u| {
      JoinSplitLast(u, i);
    } else {
      TerminatedSuffix(u, i + 1);
      JoinSplit(u[i + 1..]);
      JoinSplitStep(u, i);
    }
  }

  /** The last line of JoinSplit: a single line and its '\n'. */
  lemma JoinSplitLast(u: string, i: nat)
    requires i == FirstBoundary(u) && i + 1 == |u| && u[i] == '\n'
    ensures Join(SplitLines(u)) + "\n" == u
  {
    SplitHead(u, i, i + 1);
    CutAt(u, i);
    assert u[i + 1..] == [];
    assert SplitLines(u) == [u[..i]];
  }

  /** One line of JoinSplit: the first line, its '\n', then the rest joined back. */
  lemma JoinSplitStep(u: string, i: nat)
    requires i == FirstBoundary(u) && i + 1 < |u| && u[i] == '\n'
    requires Join(SplitLines(u[i + 1..])) + "\n" == u[i + 1..]
    ensures Join(SplitLines(u)) + "\n" == u
  {
    SplitHead(u, i, i + 1);
    var head, tail := u[..i], SplitLines(u[i + 1..]);
    JoinCons(head, tail);
    CutAt(u, i);
    Glue(Join(SplitLines(u)), head, Join(tail), u[i + 1..], u);
  }

  lemma JoinCons(head: string, tail: seq<string>)
    requires tail != []
    ensures Join([head] + tail) == head + "\n" + Join(tail)
  {
    assert ([head] + tail)[1..] == tail;
  }

  /** A text is its prefix, the character at the cut, and its suffix. */
  lemma CutAt(u: string, i: nat)
    requires i < |u|
    ensures u == u[..i] + [u[i]] + u[i + 1..]
  {
  }

  lemma Glue(j: string, h: string, jt: string, rest: string, u: string)
    requires j == h + "\n" + jt && jt + "\n" == rest && u == h + "\n" + rest
    ensures j + "\n" == u
  {
  }

  /** Text with a line boundary splits into its first line and the lines after that line's break. */
  lemma SplitHead(s: string, i: nat, k: nat)
    requires i == FirstBoundary(s) && i < |s| && k == i + BreakWidth(s, i)
    ensures SplitLines(s) == [s[..i]] + SplitLines(s[k..])
  {
  }

  /** Non-empty text without a line boundary is a single line. */
  lemma SplitWhole(s: string)
    requires s != [] && FirstBoundary(s) == |s|
    ensures SplitLines(s) == [s]
  {
  }

  /** A boundary inside the first part is still the first boundary of the concatenation. */
  lemma FirstBoundaryConcat(u: string, w: string)
    requires FirstBoundary(u) < |u|
    ensures FirstBoundary(u + w) == FirstBoundary(u)
  {
    var i := FirstBoundary(u);
    var k := FirstBoundary(u + w);
    assert (u + w)[i] == u[i];
  }

  /** Appending after a '\n'-terminated text leaves its first line and first break unchanged. */
  lemma BoundaryConcat(u: string, w: string)
    requires u != [] && u[|u| - 1] == '\n'
    ensures FirstBoundary(u) < |u|
    ensures FirstBoundary(u + w) == FirstBoundary(u)
    ensures BreakWidth(u + w, FirstBoundary(u)) == BreakWidth(u, FirstBoundary(u))
  {
    assert IsLineBoundary(u[|u| - 1]);
    var s := u + w;
    var i := FirstBoundary(u);
    assert FirstBoundary(s) == i by {
      var k := FirstBoundary(s);
      assert s[i] == u[i];
    }
    if i + 1 < |u| {
      assert s[i + 1] == u[i + 1];
    } else {
      assert u[i] == '\n';
    }
  }

  /** Slicing inside the first part of a concatenation. */
  lemma SliceConcat(u: string, w: string, k: nat)
    requires k <= |u|
    ensures (u + w)[..k] == u[..k] && (u + w)[k..] == u[k..] + w
  {
  }

  /** After a '\n'-terminated text, the first line of the concatenation is that text's first line. */
  lemma SplitHeadConcat(u: string, w: string, i: nat, k: nat)
    requires u != [] && u[|u| - 1] == '\n'
    requires i == FirstBoundary(u) && i < |u| && k == i + BreakWidth(u, i)
    ensures SplitLines(u + w) == [u[..i]] + SplitLines(u[k..] + w)
  {
    BoundaryConcat(u, w);
    SliceConcat(u, w, i);
    SliceConcat(u, w, k);
    SplitHead(u + w, i, k);
  }

  /** One line of SplitAppend: the first line is shared, and the rest split separately. */
  lemma SplitAppendStep(u: string, w: string, i: nat, k: nat)
    requires u != [] && u[|u| - 1] == '\n'
    requires i == FirstBoundary(u) && i < |u| && k == i + BreakWidth(u, i)
    requires SplitLines(u[k..] + w) == SplitLines(u[k..]) + SplitLines(w)
    ensures SplitLines(u + w) == SplitLines(u) + SplitLines(w)
  {
    SplitHeadConcat(u, w, i, k);
    SplitHead(u, i, k);
    Rejoin(SplitLines(u + w), SplitLines(u), [u[..i]], SplitLines(u[k..]), SplitLines(w));
  }

  lemma Rejoin<T>(x: seq<T>, y: seq<T>, a: seq<T>, b: seq<T>, c: seq<T>)
    requires x == a + (b + c) && y == a + b
    ensures x == y + c
  {
  }

  /** A '\n' at the end of the first part ends its last line, so the parts split separately. */
  lemma {:induction false} SplitAppend(u: string, w: string)
    requires u == [] || u[|u| - 1] == '\n'
    ensures SplitLines(u + w) == SplitLines(u) + SplitLines(w)
    decreases |u|
  {
    if u == [] {
      assert u + w == w;
    } else {
      BoundaryConcat(u, w);
      var i := FirstBoundary(u);
      var k := i + BreakWidth(u, i);
      assert u[k..] == [] || u[k..][|u[k..]| - 1] == '\n';
      SplitAppend(u[k..], w);
      SplitAppendStep(u, w, i, k);
    }
  }

  /** One line of SplitTerminate: both texts break after the same first line. */
  lemma SplitTerminateStep(t: string, i: nat)
    requires i == FirstBoundary(t) && i + 1 < |t| && t[i] == '\n'
    requires SplitLines(t[i + 1..] + "\n") == SplitLines(t[i + 1..])
    ensures SplitLines(t + "\n") == SplitLines(t)
  {
    FirstBoundaryConcat(t, "\n");
    SliceConcat(t, "\n", i);
    SliceConcat(t, "\n", i + 1);
    SplitHead(t, i, i + 1);
    SplitHead(t + "\n", i, i + 1);
  }

  /** Ending a last line that lacks a break with '\n' changes none of the lines. */
  lemma {:induction false} SplitTerminate(t: string)
    requires t != [] && NewlineOnly(t) && t[|t| - 1] != '\n'
    ensures SplitLines(t + "\n") == SplitLines(t)
    decreases |t|
  {
    var i := FirstBoundary(t);
    if i == |t| {
      SplitTerminateLast(t);
    } else {
      UnterminatedSuffix(t, i);
      SplitTerminate(t[i + 1..]);
      SplitTerminateStep(t, i);
    }
  }

  /** The last line of SplitTerminate: a text without any break. */
  lemma SplitTerminateLast(t: string)
    requires t != [] && FirstBoundary(t) == |t|
    ensures SplitLines(t + "\n") == SplitLines(t)
  {
    var s := t + "\n";
    var i := |t|;
    assert FirstBoundary(s) == i by {
      var k := FirstBoundary(s);
      assert s[|t|] == '\n';
    }
    SplitHead(s, i, i + 1);
    assert s[..i] == t && s[i + 1..] == [];
  }

  /** What SplitTerminate asks of its input, kept by the text after its first break. */
  lemma UnterminatedSuffix(t: string, i: nat)
    requires t != [] && NewlineOnly(t) && t[|t| - 1] != '\n'
    requires i == FirstBoundary(t) && i < |t|
    ensures t[i] == '\n' && i + 1 < |t|
    ensures t[i + 1..] != [] && NewlineOnly(t[i + 1..]) && t[i + 1..][|t[i + 1..]| - 1] != '\n'
  {
    assert t[i] == '\n';
    NewlineOnlySuffix(t, i + 1);
  }
}
