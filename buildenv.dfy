/**
 * The merge of the public API base into the build project's production
 * environment file. The file is either absent or some text; the merge
 * produces the new text.
 *
 * When the file already mentions the key, the merge does not edit the key's
 * line in place: it drops every line that starts with the key and appends
 * one fresh key line at the end. When the file exists without the key, the
 * key line is appended after a '\n' that is inserted only if missing. When
 * there is no file, the key line alone is written.
 */
module BuildEnv {
  import opened Effects
  import opened Text

  const Key := "NEXT_PUBLIC_PORTFOLIO_API="

  function KeyLine(v: string): string {
    Key + v
  }

  /** The lines that survive the filter of the merge, in their original order. */
  function Kept(lines: seq<string>): (r: seq<string>)
    ensures forall l :: l in r ==> l in lines && !StartsWith(l, Key)
    ensures forall l :: l in lines && !StartsWith(l, Key) ==> l in r
  {
    if lines == [] then []
    else (if StartsWith(lines[0], Key) then [] else [lines[0]]) + Kept(lines[1..])
  }

  /**
   * The new text of the environment file, given its old text (None when the
   * file does not exist) and the non-empty value to embed.
   */
  function MergeBuildEnv(existing: Option<string>, v: string): (text: string)
    ensures EndsWith(text, KeyLine(v) + "\n")
    ensures existing.Some? && !Contains(existing.value, Key) ==>
      StartsWith(text, existing.value)
      && |text| == |existing.value| + (if EndsWith(existing.value, "\n") then 0 else 1) + |KeyLine(v)| + 1
    // the one character inserted after an unterminated file is a '\n'
    ensures existing.Some? && !Contains(existing.value, Key) && !EndsWith(existing.value, "\n") ==>
      text[|existing.value|] == '\n'
  {
    match existing
    case None => KeyLine(v) + "\n"
    case Some(txt) =>
      if Contains(txt, Key) then
        var kept := Kept(SplitLines(txt));
        JoinEndsWith(kept, KeyLine(v));
        EndsWithExtend(Join(kept + [KeyLine(v)]), KeyLine(v), "\n");
        Join(kept + [KeyLine(v)]) + "\n"
      else
        Affixes(txt, if !EndsWith(txt, "\n") then "\n" else "", KeyLine(v), "\n");
        txt + (if !EndsWith(txt, "\n") then "\n" else "") + KeyLine(v) + "\n"
  }

  /** The lines of the old file, none when it does not exist. */
  function OldLines(existing: Option<string>): seq<string> {
    match existing
    case None => []
    case Some(txt) => SplitLines(txt)
  }

  lemma JoinEndsWith(a: seq<string>, x: string)
    ensures EndsWith(Join(a + [x]), x)
  {
    if a == [] {
      assert a + [x] == [x];
    } else {
      JoinAppend(a, x);
    }
  }

  lemma {:induction false} KeptAppend(a: seq<string>, b: seq<string>)
    ensures Kept(a + b) == Kept(a) + Kept(b)
    decreases |a|
  {
    if a == [] {
      assert a + b == b;
    } else {
      assert (a + b)[1..] == a[1..] + b;
      KeptAppend(a[1..], b);
    }
  }

  lemma {:induction false} KeptIdentity(lines: seq<string>)
    requires forall l :: l in lines ==> !StartsWith(l, Key)
    ensures Kept(lines) == lines
    decreases |lines|
  {
    if lines != [] {
      assert forall l :: l in lines[1..] ==> l in lines;
      KeptIdentity(lines[1..]);
    }
  }

  lemma ContainsSuffix(s: string, k: nat, t: string)
    requires k <= |s| && Contains(s[k..], t)
    ensures Contains(s, t)
  {
    var j :| 0 <= j <= |s[k..]| && StartsWith(s[k..][j..], t);
    assert s[k..][j..] == s[k + j..];
    ContainsAt(s, t, k + j);
  }

  /** A line of the text that starts with the key means the key occurs in the text. */
  lemma {:induction false} KeyLineInside(s: string, l: string)
    requires l in SplitLines(s) && StartsWith(l, Key)
    ensures Contains(s, Key)
    decreases |s|
  {
    var i := FirstBoundary(s);
    if i == |s| {
      SplitWhole(s);
      PrefixContains(s, s, Key);
    } else {
      var k := i + BreakWidth(s, i);
      SplitHead(s, i, k);
      if l == s[..i] {
        PrefixContains(s, s[..i], Key);
      } else {
        KeyLineInside(s[k..], l);
        ContainsSuffix(s, k, Key);
      }
    }
  }

  /** Text that starts with a prefix starting with `t` contains `t`. */
  lemma PrefixContains(s: string, p: string, t: string)
    requires |p| <= |s| && p == s[..|p|] && StartsWith(p, t)
    ensures Contains(s, t)
  {
    assert s[0..] == s;
    assert s[..|t|] == p[..|t|];
    ContainsAt(s, t, 0);
  }

  lemma KeptNoKey(s: string)
    requires !Contains(s, Key)
    ensures Kept(SplitLines(s)) == SplitLines(s)
  {
    forall l | l in SplitLines(s) ensures !StartsWith(l, Key) {
      if StartsWith(l, Key) {
        KeyLineInside(s, l);
      }
    }
    KeptIdentity(SplitLines(s));
  }

  /** The key cannot straddle a final '\n', since it contains no line break. */
  lemma KeyBeforeNewline(t: string)
    ensures Contains(t + "\n", Key) ==> Contains(t, Key)
  {
    var s := t + "\n";
    if Contains(s, Key) {
      var i :| 0 <= i <= |s| && StartsWith(s[i..], Key);
      assert s[i..][..|Key|] == Key;
      assert s[i..][|Key| - 1] == '=';
      assert i + |Key| <= |t|;
      assert t[i..][..|Key|] == Key;
      ContainsAt(t, Key, i);
    }
  }

  lemma KeyLineContainsKey(text: string, v: string)
    requires EndsWith(text, KeyLine(v) + "\n")
    ensures Contains(text, Key)
  {
    var k := |text| - |KeyLine(v)| - 1;
    assert text[k..] == KeyLine(v) + "\n";
    assert text[k..][..|Key|] == Key;
    ContainsAt(text, Key, k);
  }

  lemma KeyLineClean(v: string)
    requires NoLineBoundary(v)
    ensures NoLineBoundary(KeyLine(v)) && StartsWith(KeyLine(v), Key)
    ensures SplitLines(KeyLine(v) + "\n") == [KeyLine(v)]
    ensures Kept([KeyLine(v)]) == []
  {
    var line := KeyLine(v);
    forall i | 0 <= i < |line| ensures !IsLineBoundary(line[i]) {
      if i >= |Key| {
        assert line[i] == v[i - |Key|];
      }
    }
    assert line[..|Key|] == Key;
    SplitJoin([line]);
    assert Join([line]) == line;
  }

  /** The lines of a merge into a file without the key: the old lines, then the key line. */
  lemma MergeLinesKeyAbsent(txt: string, v: string)
    requires NoLineBoundary(v)
    requires !Contains(txt, Key) && txt != "" && NewlineOnly(txt)
    ensures SplitLines(MergeBuildEnv(Some(txt), v)) == Kept(SplitLines(txt)) + [KeyLine(v)]
  {
    var line := KeyLine(v);
    var u := txt + (if !EndsWith(txt, "\n") then "\n" else "");
    var text := MergeBuildEnv(Some(txt), v);
    assert text == u + (line + "\n");
    assert u[|u| - 1] == '\n' && SplitLines(u) == SplitLines(txt) by { TerminatedLines(txt); }
    assert SplitLines(line + "\n") == [line] by { KeyLineClean(v); }
    assert SplitLines(text) == SplitLines(u) + SplitLines(line + "\n") by { SplitAppend(u, line + "\n"); }
    assert Kept(SplitLines(txt)) == SplitLines(txt) by { KeptNoKey(txt); }
  }

  /** The '\n' the merge adds to an unterminated file ends its last line without changing the lines. */
  lemma TerminatedLines(txt: string)
    requires txt != "" && NewlineOnly(txt)
    ensures var u := txt + (if !EndsWith(txt, "\n") then "\n" else "");
      u[|u| - 1] == '\n' && SplitLines(u) == SplitLines(txt)
  {
    if EndsWith(txt, "\n") {
      assert txt + "" == txt;
    } else {
      assert txt[|txt| - 1] != '\n';
      SplitTerminate(txt);
    }
  }

  /**
   * After the merge the file's lines are the old lines that do not start with
   * the key, in their original order, followed by exactly one key line. For a
   * file without the key this needs a non-empty file whose only line break is
   * '\n' (an empty file gains a blank first line, see MergeIntoEmptyFile).
   */
  lemma MergeLines(existing: Option<string>, v: string)
    requires NoLineBoundary(v)
    requires existing.Some? && !Contains(existing.value, Key) ==>
      existing.value != "" && NewlineOnly(existing.value)
    ensures SplitLines(MergeBuildEnv(existing, v)) == Kept(OldLines(existing)) + [KeyLine(v)]
  {
    KeyLineClean(v);
    match existing
    case None =>
    case Some(txt) =>
      if Contains(txt, Key) {
        SplitJoin(Kept(SplitLines(txt)) + [KeyLine(v)]);
      } else {
        MergeLinesKeyAbsent(txt, v);
      }
  }

  /** An existing but empty file gains a blank first line before the key line. */
  lemma MergeIntoEmptyFile(v: string)
    requires NoLineBoundary(v)
    ensures SplitLines(MergeBuildEnv(Some(""), v)) == ["", KeyLine(v)]
  {
    var line := KeyLine(v);
    KeyLineClean(v);
    assert !Contains("", Key);
    assert Join(["", line]) == "\n" + line;
    SplitJoin(["", line]);
  }

  /** A text made of key-free lines and one final key line is a fixed point of the merge. */
  lemma RemergeFixed(text: string, prior: seq<string>, v: string)
    requires NoLineBoundary(v)
    requires forall l :: l in prior ==> !StartsWith(l, Key)
    requires SplitLines(text) == prior + [KeyLine(v)]
    requires Join(prior + [KeyLine(v)]) + "\n" == text
    ensures MergeBuildEnv(Some(text), v) == text
  {
    var line := KeyLine(v);
    KeyLineClean(v);
    JoinEndsWith(prior, line);
    KeyLineContainsKey(text, v);
    assert Kept(SplitLines(text)) == prior by {
      KeptAppend(prior, [line]);
      KeptIdentity(prior);
      assert prior + [] == prior;
    }
  }

  /** Adding the missing final '\n' to a key-free text keeps it key-free and '\n'-only. */
  lemma TerminatedKeyFree(txt: string, u: string)
    requires !Contains(txt, Key) && NewlineOnly(txt)
    requires u == txt + (if !EndsWith(txt, "\n") then "\n" else "")
    ensures u != [] && u[|u| - 1] == '\n' && NewlineOnly(u) && !Contains(u, Key)
  {
    if EndsWith(txt, "\n") {
      assert u == txt;
    } else {
      KeyBeforeNewline(txt);
    }
  }

  lemma RemergeKeyAbsent(txt: string, v: string)
    requires NoLineBoundary(v)
    requires !Contains(txt, Key) && NewlineOnly(txt)
    ensures var once := MergeBuildEnv(Some(txt), v);
            MergeBuildEnv(Some(once), v) == once
  {
    var line := KeyLine(v);
    KeyLineClean(v);
    var once := MergeBuildEnv(Some(txt), v);
    var u := txt + (if !EndsWith(txt, "\n") then "\n" else "");
    assert once == u + (line + "\n");
    TerminatedKeyFree(txt, u);
    var prior := SplitLines(u);
    SplitAppend(u, line + "\n");
    KeptNoKey(u);
    JoinAppend(prior, line);
    JoinSplit(u);
    RemergeFixed(once, prior, v);
  }

  /**
   * Merging the same value twice gives the text of merging it once: for a
   * value without line breaks, and an old file that already holds the key or
   * whose only line break is '\n'.
   */
  lemma MergeIdempotent(existing: Option<string>, v: string)
    requires NoLineBoundary(v)
    requires existing.Some? ==> Contains(existing.value, Key) || NewlineOnly(existing.value)
    ensures MergeBuildEnv(Some(MergeBuildEnv(existing, v)), v) == MergeBuildEnv(existing, v)
  {
    var line := KeyLine(v);
    KeyLineClean(v);
    match existing
    case None =>
      assert Join([] + [line]) == line;
      RemergeFixed(line + "\n", [], v);
    case Some(txt) =>
      if Contains(txt, Key) {
        var prior := Kept(SplitLines(txt));
        SplitJoin(prior + [line]);
        RemergeFixed(MergeBuildEnv(existing, v), prior, v);
      } else {
        RemergeKeyAbsent(txt, v);
      }
  }

  // ----- The merge as the source writes it -----

  /**
   * The merge exactly as written: in the branch that drops old key lines the
   * fresh key line is the key line with its '\n' removed by str.strip(),
   * which also removes any whitespace that ends the value.
   */
  function MergeBuildEnvAsWritten(existing: Option<string>, v: string): (text: string)
    ensures existing.Some? && !Contains(existing.value, Key) ==> StartsWith(text, existing.value)
  {
    var content := Key + v + "\n";
    match existing
    case None => content
    case Some(txt) =>
      if Contains(txt, Key) then
        Join(Kept(SplitLines(txt)) + [StripSpace(content)]) + "\n"
      else
        txt + (if !EndsWith(txt, "\n") then "\n" else "") + content
  }

  /** str.strip() on the key line removes its '\n' and any whitespace ending the value. */
  lemma StripKeyContent(v: string)
    ensures StripSpace(Key + v + "\n") == Key + RStripSpace(v)
  {
    var content := Key + v + "\n";
    assert LStripSpace(content) == content by {
      assert content[0] == 'N';
    }
    assert content == Key + (v + "\n");
    RStripSpaceAfter(Key, v + "\n");
    RStripNewline(v);
  }

  /** The final '\n' is whitespace, so rstrip removes it along with the rest. */
  lemma RStripNewline(v: string)
    ensures RStripSpace(v + "\n") == RStripSpace(v)
  {
    assert IsSpace('\n');
    assert (v + "\n")[..|v|] == v;
  }

  lemma AsWrittenAgreesWithKey(txt: string, v: string)
    requires Contains(txt, Key) && StripSpace(Key + v + "\n") == KeyLine(v)
    ensures MergeBuildEnvAsWritten(Some(txt), v) == MergeBuildEnv(Some(txt), v)
  {
    var kept := Kept(SplitLines(txt));
    assert MergeBuildEnvAsWritten(Some(txt), v) == Join(kept + [KeyLine(v)]) + "\n";
  }

  lemma AsWrittenAgreesWithoutKey(txt: string, v: string)
    requires !Contains(txt, Key)
    ensures MergeBuildEnvAsWritten(Some(txt), v) == MergeBuildEnv(Some(txt), v)
  {
    var sep := if !EndsWith(txt, "\n") then "\n" else "";
    assert MergeBuildEnvAsWritten(Some(txt), v) == txt + sep + (Key + v + "\n");
    assert MergeBuildEnv(Some(txt), v) == txt + sep + (Key + v + "\n");
  }

  /** For a value that does not end in whitespace the two merges agree. */
  lemma AsWrittenAgreesOnTrimmedValues(existing: Option<string>, v: string)
    requires v == [] || !IsSpace(v[|v| - 1])
    ensures MergeBuildEnvAsWritten(existing, v) == MergeBuildEnv(existing, v)
  {
    match existing
    case None =>
      assert MergeBuildEnvAsWritten(existing, v) == Key + v + "\n";
    case Some(txt) =>
      if Contains(txt, Key) {
        StripKeyContent(v);
        assert RStripSpace(v) == v;
        AsWrittenAgreesWithKey(txt, v);
      } else {
        AsWrittenAgreesWithoutKey(txt, v);
      }
  }

  /** The value the key line carries after the merge as written: right-stripped when the file held the key. */
  function WrittenValue(existing: Option<string>, v: string): string {
    if existing.Some? && Contains(existing.value, Key) then RStripSpace(v) else v
  }

  /** In the branch that drops old key lines, the code writes the corrected merge of the right-stripped value. */
  lemma AsWrittenKeyBranch(txt: string, v: string)
    requires Contains(txt, Key)
    ensures MergeBuildEnvAsWritten(Some(txt), v) == MergeBuildEnv(Some(txt), RStripSpace(v))
  {
    StripKeyContent(v);
    var kept := Kept(SplitLines(txt));
    assert MergeBuildEnvAsWritten(Some(txt), v) == Join(kept + [KeyLine(RStripSpace(v))]) + "\n";
  }

  /** The merge as written is the corrected merge of the value it actually writes. */
  lemma AsWrittenIsMergeOfWrittenValue(existing: Option<string>, v: string)
    ensures MergeBuildEnvAsWritten(existing, v) == MergeBuildEnv(existing, WrittenValue(existing, v))
  {
    match existing
    case None =>
      assert MergeBuildEnvAsWritten(existing, v) == KeyLine(v) + "\n";
    case Some(txt) =>
      if Contains(txt, Key) {
        AsWrittenKeyBranch(txt, v);
      } else {
        AsWrittenAgreesWithoutKey(txt, v);
      }
  }

  /** Right-stripping a value without line breaks leaves one without line breaks. */
  lemma WrittenValueClean(existing: Option<string>, v: string)
    requires NoLineBoundary(v)
    ensures NoLineBoundary(WrittenValue(existing, v))
  {
    var w := WrittenValue(existing, v);
    assert w == v[..|w|];
    forall i | 0 <= i < |w|
      ensures !IsLineBoundary(w[i])
    {
      assert w[i] == v[i];
    }
  }

  /**
   * The lines of the file the code writes: the old lines that do not start
   * with the key, in order, then one key line carrying the written value;
   * the file ends with that line and a '\n'.
   */
  lemma AsWrittenLines(existing: Option<string>, v: string)
    requires NoLineBoundary(v)
    requires existing.Some? && !Contains(existing.value, Key) ==>
      existing.value != "" && NewlineOnly(existing.value)
    ensures SplitLines(MergeBuildEnvAsWritten(existing, v)) ==
      Kept(OldLines(existing)) + [KeyLine(WrittenValue(existing, v))]
    ensures EndsWith(MergeBuildEnvAsWritten(existing, v), KeyLine(WrittenValue(existing, v)) + "\n")
  {
    AsWrittenIsMergeOfWrittenValue(existing, v);
    WrittenValueClean(existing, v);
    MergeLines(existing, WrittenValue(existing, v));
  }

  /**
   * The merge as written settles from its second run on: a third run with
   * the same value writes what the second run wrote.
   */
  lemma AsWrittenStable(existing: Option<string>, v: string)
    requires NoLineBoundary(v)
    requires existing.Some? ==> Contains(existing.value, Key) || NewlineOnly(existing.value)
    ensures var twice := MergeBuildEnvAsWritten(Some(MergeBuildEnvAsWritten(existing, v)), v);
      MergeBuildEnvAsWritten(Some(twice), v) == twice
  {
    var once := MergeBuildEnvAsWritten(existing, v);
    var r := RStripSpace(v);
    WrittenValueClean(Some(once), v);
    AsWrittenIsMergeOfWrittenValue(existing, v);
    KeyLineContainsKey(once, WrittenValue(existing, v));
    AsWrittenKeyBranch(once, v);
    var twice := MergeBuildEnvAsWritten(Some(once), v);
    KeyLineContainsKey(twice, r);
    AsWrittenKeyBranch(twice, v);
    MergeIdempotent(Some(once), r);
  }

  /**
   * With no file and the value "x " the first run writes the key line with
   * the trailing space and the second run writes it without: the as-written
   * merge is not idempotent.
   */
  lemma AsWrittenNotIdempotent()
    ensures var once := MergeBuildEnvAsWritten(None, "x ");
            MergeBuildEnvAsWritten(Some(once), "x ") != once
  {
    var v := "x ";
    var once := MergeBuildEnvAsWritten(None, v);
    assert once == KeyLine(v) + "\n";
    assert EndsWith(once, KeyLine(v) + "\n");
    KeyLineContainsKey(once, v);
    StripTrailingSpace();
    var twice := MergeBuildEnvAsWritten(Some(once), v);
    AsWrittenKeyBranchEnds(once, v);
    NextToLast(twice, Key + "x" + "\n");
    NextToLast(once, once);
  }

  /** str.strip() turns the key line of "x " into the key line of "x". */
  lemma StripTrailingSpace()
    ensures StripSpace(Key + "x " + "\n") == Key + "x"
  {
    StripKeyContent("x ");
    RStripOneSpace();
  }

  lemma RStripOneSpace()
    ensures RStripSpace("x ") == "x"
  {
    var v := "x ";
    assert v[..1] == "x" && IsSpace(v[1]);
    assert RStripSpace(v) == RStripSpace("x");
    assert !IsSpace('x');
  }

  /** In the branch that drops old key lines, the as-written text ends with the stripped key line. */
  lemma AsWrittenKeyBranchEnds(txt: string, v: string)
    requires Contains(txt, Key)
    ensures EndsWith(MergeBuildEnvAsWritten(Some(txt), v), StripSpace(Key + v + "\n") + "\n")
  {
    var kept := Kept(SplitLines(txt));
    var stripped := StripSpace(Key + v + "\n");
    JoinEndsWith(kept, stripped);
    EndsWithExtend(Join(kept + [stripped]), stripped, "\n");
  }

  lemma NextToLast(s: string, p: string)
    requires EndsWith(s, p) && |p| >= 2
    ensures s[|s| - 2] == p[|p| - 2]
  {
    assert s[|s| - |p|..][|p| - 2] == s[|s| - 2];
  }
}
