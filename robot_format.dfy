/**
 * `Transformer._format_markdown_for_robot` (src/transformer.py:93-117):
 * DingTalk does not render `<font>` tags, so red, green and orange font
 * spans become `**bold**` and every other tag is dropped; other robots get
 * the content unchanged. The three `re.sub` passes are written out as
 * left-to-right scans with the regular expressions' own matching rules.
 */
module RobotFormat {
  import opened Wrappers
  import opened Text

  const CloseTag := "</font>"
  const RedOpen := "<font color=\"red\">"
  const GreenOpen := "<font color=\"green\">"
  const OrangeOpen := "<font color=\"orange\">"

  /**
   * Where the lazy `(.*?)</font>` that starts at `j` ends: the first
   * `</font>` at or after `j`, provided no newline comes first (`.` does not
   * match a newline).
   */
  function CloseFrom(s: string, j: nat): (k: Option<nat>)
    requires j <= |s|
    ensures k.Some? ==> j <= k.value && OccursAt(s, CloseTag, k.value)
    ensures k.Some? ==> forall p :: j <= p < k.value ==> s[p] != '\n' && !OccursAt(s, CloseTag, p)
    decreases |s| - j
  {
    if OccursAt(s, CloseTag, j) then Some(j)
    else if j == |s| || s[j] == '\n' then None
    else CloseFrom(s, j + 1)
  }

  /** `re.sub(open + '(.*?)</font>', r'**\1**', s)`. */
  function ReplaceFont(s: string, open: string): string
    decreases |s|
  {
    if s == [] then []
    else if StartsWith(s, open) && CloseFrom(s, |open|).Some? then
      var j := CloseFrom(s, |open|).value;
      "**" + s[|open|..j] + "**" + ReplaceFont(s[j + |CloseTag|..], open)
    else [s[0]] + ReplaceFont(s[1..], open)
  }

  /** The first `>` at or after `j`. */
  function FirstGt(s: string, j: nat): (k: Option<nat>)
    requires j <= |s|
    ensures k.Some? ==> j <= k.value < |s| && s[k.value] == '>'
    ensures k.Some? ==> forall p :: j <= p < k.value ==> s[p] != '>'
    ensures k.None? ==> forall p :: j <= p < |s| ==> s[p] != '>'
    decreases |s| - j
  {
    if j == |s| then None
    else if s[j] == '>' then Some(j)
    else FirstGt(s, j + 1)
  }

  /** The regular expression `<[^>]+>` matches at position `i` of `s`. */
  predicate TagAt(s: string, i: nat)
    requires i < |s|
  {
    s[i] == '<' && i + 1 < |s| && s[i + 1] != '>' && exists k | i + 1 < k < |s| :: s[k] == '>'
  }

  predicate NoTags(s: string) {
    forall i | 0 <= i < |s| :: !TagAt(s, i)
  }

  /** `re.sub(r'<[^>]+>', '', s)`; it only ever drops characters. */
  function StripTags(s: string): (r: string)
    ensures forall c :: c in r ==> c in s
    decreases |s|
  {
    if s == [] then []
    else if s[0] == '<' && |s| >= 2 && s[1] != '>' && FirstGt(s, 1).Some? then
      StripTags(s[FirstGt(s, 1).value + 1..])
    else [s[0]] + StripTags(s[1..])
  }

  /** `_format_markdown_for_robot(content, robot_type)`. */
  function FormatMarkdownForRobot(content: string, robotType: string): string {
    if content == "" then content
    else if robotType == "dingtalk" then
      StripTags(ReplaceFont(ReplaceFont(ReplaceFont(content, RedOpen), GreenOpen), OrangeOpen))
    else content
  }

  // ================================================================ lemmas

  /** Empty content and every robot other than DingTalk get the content back unchanged. */
  lemma FormatKeepsOtherRobots(content: string, robotType: string)
    requires content == "" || robotType != "dingtalk"
    ensures FormatMarkdownForRobot(content, robotType) == content
  {
  }

  lemma TagAtShift(c: char, r: string, i: nat)
    requires i < |r|
    ensures TagAt([c] + r, i + 1) == TagAt(r, i)
  {
    var s := [c] + r;
    if TagAt(r, i) {
      var k :| i + 1 < k < |r| && r[k] == '>';
      assert s[k + 1] == '>';
    }
    if TagAt(s, i + 1) {
      var k :| i + 2 < k < |s| && s[k] == '>';
      assert r[k - 1] == '>';
    }
  }

  /** Prepending one character that does not start a tag keeps a tag-free string tag-free. */
  lemma ConsNoTags(c: char, r: string)
    requires NoTags(r)
    requires c == '<' ==> (|r| > 0 && r[0] == '>') || '>' !in r
    ensures NoTags([c] + r)
  {
    var s := [c] + r;
    forall i | 0 <= i < |s| ensures !TagAt(s, i) {
      if i > 0 {
        TagAtShift(c, r, i - 1);
      } else if c == '<' && '>' !in r {
        forall k | 1 < k < |s| ensures s[k] != '>' {
          assert s[k] == r[k - 1];
        }
      }
    }
  }

  /** `StripTags` leaves nothing that `<[^>]+>` would match. */
  lemma {:induction false} StripTagsLeavesNoTags(s: string)
    ensures NoTags(StripTags(s))
    decreases |s|
  {
    if s == [] {
    } else if s[0] == '<' && |s| >= 2 && s[1] != '>' && FirstGt(s, 1).Some? {
      StripTagsLeavesNoTags(s[FirstGt(s, 1).value + 1..]);
    } else {
      var rest := StripTags(s[1..]);
      StripTagsLeavesNoTags(s[1..]);
      if s[0] == '<' && |s| >= 2 {
        if s[1] == '>' {
          assert s[1..] == ['>'] + s[2..];
          assert rest == ['>'] + StripTags(s[2..]);
        } else {
          assert FirstGt(s, 1).None?;
          forall c | c in rest ensures c != '>' {
            var p :| 0 <= p < |s[1..]| && s[1..][p] == c;
            assert s[p + 1] == c;
          }
        }
      }
      ConsNoTags(s[0], rest);
    }
  }

  /** DingTalk content never keeps a tag. */
  lemma DingTalkHasNoTags(content: string)
    ensures NoTags(FormatMarkdownForRobot(content, "dingtalk"))
  {
    if content != "" {
      StripTagsLeavesNoTags(ReplaceFont(ReplaceFont(ReplaceFont(content, RedOpen), GreenOpen), OrangeOpen));
    }
  }

  lemma {:induction false} ReplaceFontPlain(s: string, open: string)
    requires '<' !in s && |open| > 0 && open[0] == '<'
    ensures ReplaceFont(s, open) == s
    decreases |s|
  {
    if s != [] {
      assert s[0] != '<';
      assert s[1..] == s[1..] && forall c :: c in s[1..] ==> c in s;
      ReplaceFontPlain(s[1..], open);
    }
  }

  lemma {:induction false} StripTagsPlain(s: string)
    requires '<' !in s
    ensures StripTags(s) == s
    decreases |s|
  {
    if s != [] {
      assert forall c :: c in s[1..] ==> c in s;
      StripTagsPlain(s[1..]);
    }
  }

  /** Text without markup reaches every robot unchanged. */
  lemma PlainTextUnchanged(content: string, robotType: string)
    requires '<' !in content
    ensures FormatMarkdownForRobot(content, robotType) == content
  {
    if content != "" && robotType == "dingtalk" {
      ReplaceFontPlain(content, RedOpen);
      ReplaceFontPlain(content, GreenOpen);
      ReplaceFontPlain(content, OrangeOpen);
      StripTagsPlain(content);
    }
  }

  lemma {:induction false} CloseFromFinds(s: string, j: nat, m: nat)
    requires j <= m && OccursAt(s, CloseTag, m)
    requires forall p :: j <= p < m ==> s[p] != '\n' && !OccursAt(s, CloseTag, p)
    ensures CloseFrom(s, j) == Some(m)
    decreases m - j
  {
    if j < m {
      CloseFromFinds(s, j + 1, m);
    }
  }

  lemma {:induction false} ReplaceFontAbsent(s: string, open: string)
    requires |open| > 0
    requires forall i | 0 <= i < |s| :: !OccursAt(s, open, i)
    ensures ReplaceFont(s, open) == s
    decreases |s|
  {
    if s != [] {
      assert !OccursAt(s, open, 0);
      forall i | 0 <= i < |s[1..]| ensures !OccursAt(s[1..], open, i) {
        assert !OccursAt(s, open, i + 1);
        if i + |open| <= |s[1..]| {
          assert s[1..][i..i + |open|] == s[i + 1..i + 1 + |open|];
        }
      }
      ReplaceFontAbsent(s[1..], open);
    }
  }

  predicate IsFontOpen(open: string) {
    open == RedOpen || open == GreenOpen || open == OrangeOpen
  }

  lemma FontOpenShape(open: string)
    requires IsFontOpen(open)
    ensures |open| >= 18 && open[0] == '<' && '<' !in open[1..]
  {
  }

  /** A span of one colour holds no opening tag of another colour. */
  lemma OtherColourAbsent(open: string, other: string, x: string)
    requires IsFontOpen(open) && IsFontOpen(other) && open != other && '<' !in x
    ensures forall i | 0 <= i < |open + x + CloseTag| :: !OccursAt(open + x + CloseTag, other, i)
  {
    var s := open + x + CloseTag;
    var m := |open| + |x|;
    FontOpenShape(open);
    FontOpenShape(other);
    forall i | 0 <= i < |s| ensures !OccursAt(s, other, i) {
      if i == 0 {
        OtherColourNotAtStart(open, other, s);
      } else if i < m {
        assert s[i] != '<' by {
          if i < |open| {
            assert s[i] == open[i] && open[i] in open[1..];
          } else {
            assert s[i] == x[i - |open|];
          }
        }
        NoTagWithoutLt(s, other, i);
      }
    }
  }

  /** The opening tags of two colours differ at index 13, the first letter of the colour. */
  lemma OtherColourNotAtStart(open: string, other: string, s: string)
    requires IsFontOpen(open) && IsFontOpen(other) && open != other && |open| <= |s| && s[..|open|] == open
    ensures !OccursAt(s, other, 0)
  {
    assert s[13] == open[13] != other[13];
    if |other| <= |s| {
      assert s[..|other|][13] == s[13];
    }
  }

  /** A tag starting with '<' cannot start where `s` has another character. */
  lemma NoTagWithoutLt(s: string, tag: string, i: int)
    requires tag != [] && tag[0] == '<' && 0 <= i < |s| && s[i] != '<'
    ensures !OccursAt(s, tag, i)
  {
    if i + |tag| <= |s| {
      assert s[i..i + |tag|][0] == s[i];
    }
  }

  /** One coloured span with its closing tag, on one line, becomes the bold span. */
  lemma SpanBecomesBold(open: string, x: string)
    requires IsFontOpen(open) && '<' !in x && '\n' !in x
    ensures ReplaceFont(open + x + CloseTag, open) == "**" + x + "**"
  {
    var s := open + x + CloseTag;
    var m := |open| + |x|;
    assert s[m..] == CloseTag;
    forall p | |open| <= p < m ensures s[p] != '\n' && !OccursAt(s, CloseTag, p) {
      assert s[p] == x[p - |open|];
    }
    CloseFromFinds(s, |open|, m);
    assert s[..|open|] == open;
    assert s[|open|..m] == x;
    assert s[m + |CloseTag|..] == [];
  }

  /** A coloured span on one line becomes bold text for DingTalk. */
  lemma ColouredSpanBecomesBold(open: string, x: string)
    requires IsFontOpen(open)
    requires '<' !in x && '\n' !in x
    ensures FormatMarkdownForRobot(open + x + CloseTag, "dingtalk") == "**" + x + "**"
  {
    var s := open + x + CloseTag;
    var b := "**" + x + "**";
    assert '<' !in b by {
      assert forall c :: c in b ==> c == '*' || c in x;
    }
    SpanBecomesBold(open, x);
    ReplaceFontPlain(b, RedOpen);
    ReplaceFontPlain(b, GreenOpen);
    ReplaceFontPlain(b, OrangeOpen);
    StripTagsPlain(b);
    if open != RedOpen {
      OtherColourAbsent(open, RedOpen, x);
      ReplaceFontAbsent(s, RedOpen);
    }
    if open == OrangeOpen {
      OtherColourAbsent(open, GreenOpen, x);
      ReplaceFontAbsent(s, GreenOpen);
    }
  }
}
