/**
 * The line classification of the markdown renderer used for generated
 * guides: the content is split at newlines, a line starting with `###`,
 * `##` or `#` (tested in that order) becomes a heading with the first
 * occurrence of its marker removed, and every other line is a paragraph
 * whose `**bold**` parts are unwrapped.  The regular-expression split of a
 * paragraph into parts is not modelled; parts are taken as given.
 */
module Markdown {
  import opened Wrappers

  predicate StartsWith(s: string, prefix: string) {
    |prefix| <= |s| && s[..|prefix|] == prefix
  }

  predicate EndsWith(s: string, suffix: string) {
    |suffix| <= |s| && s[|s| - |suffix|..] == suffix
  }

  predicate OccursAt(s: string, pattern: string, i: nat) {
    i + |pattern| <= |s| && s[i..i + |pattern|] == pattern
  }

  /** `s.indexOf(pattern)`: the first position where `pattern` occurs. */
  function IndexOf(s: string, pattern: string): (r: Option<nat>)
    ensures r.Some? ==> OccursAt(s, pattern, r.value)
    ensures r.Some? ==> forall j :: 0 <= j < r.value ==> !OccursAt(s, pattern, j)
    ensures r.None? ==> forall j :: 0 <= j <= |s| ==> !OccursAt(s, pattern, j)
  {
    if StartsWith(s, pattern) then Some(0)
    else if s == [] then None
    else
      OccursShifted(s, pattern);
      match IndexOf(s[1..], pattern)
      case None => None
      case Some(k) => Some(k + 1)
  }

  /** An occurrence in the tail is an occurrence one position later in the whole string. */
  lemma OccursShifted(s: string, pattern: string)
    requires s != []
    ensures !StartsWith(s, pattern) ==> !OccursAt(s, pattern, 0)
    ensures forall j :: 1 <= j <= |s| ==> (OccursAt(s, pattern, j) <==> OccursAt(s[1..], pattern, j - 1))
  {
    forall j | 1 <= j <= |s|
      ensures OccursAt(s, pattern, j) <==> OccursAt(s[1..], pattern, j - 1)
    {
      if j + |pattern| <= |s| {
        assert s[1..][j - 1..j - 1 + |pattern|] == s[j..j + |pattern|];
      }
    }
  }

  /** `s.replace(pattern, replacement)` with a string pattern: only the first occurrence is replaced. */
  function ReplaceFirst(s: string, pattern: string, replacement: string): (r: string)
    ensures IndexOf(s, pattern).None? ==> r == s
    ensures StartsWith(s, pattern) ==> r == replacement + s[|pattern|..]
  {
    match IndexOf(s, pattern)
    case None => s
    case Some(i) => s[..i] + replacement + s[i + |pattern|..]
  }

  datatype Block = Heading(level: nat, text: string) | Paragraph(line: string)

  /** The heading marker of a level: `#`, `##` or `###`. */
  function Marker(level: nat): string
    requires 1 <= level <= 3
  {
    if level == 3 then "###" else if level == 2 then "##" else "#"
  }

  /**
   * What one line renders as.  A heading keeps the text after its marker;
   * the longest marker (up to three) wins, so `####x` is a level-3 heading
   * reading `#x`.
   */
  function Classify(line: string): (b: Block)
    ensures b.Heading? <==> StartsWith(line, "#")
    ensures b.Heading? ==> 1 <= b.level <= 3 && line == Marker(b.level) + b.text
    ensures b.Heading? && b.level < 3 ==> !StartsWith(b.text, "#")
    ensures b.Paragraph? ==> b.line == line
  {
    if StartsWith(line, "###") then Heading(3, ReplaceFirst(line, "###", ""))
    else if StartsWith(line, "##") then
      assert ReplaceFirst(line, "##", "") == line[2..];
      assert |line| >= 3 ==> line[..3] == line[..2] + [line[2]];
      Heading(2, ReplaceFirst(line, "##", ""))
    else if StartsWith(line, "#") then
      assert ReplaceFirst(line, "#", "") == line[1..];
      Heading(1, ReplaceFirst(line, "#", ""))
    else Paragraph(line)
  }

  /** A marker followed by text that does not extend the marker reads back as that heading. */
  lemma ClassifyHeading(level: nat, text: string)
    requires 1 <= level <= 3
    requires level < 3 ==> !StartsWith(text, "#")
    ensures Classify(Marker(level) + text) == Heading(level, text)
  {
    var line := Marker(level) + text;
    assert StartsWith(line, Marker(level));
  }

  datatype Span = Bold(text: string) | Plain(text: string)

  /** Resolves a `slice` index: negative counts from the end, then clamped to the string. */
  function SliceIndex(i: int, length: nat): (r: nat)
    ensures r <= length
    ensures 0 <= i <= length ==> r == i
    ensures i < 0 <= length + i ==> r == length + i
    ensures i > length ==> r == length
    ensures length + i < 0 ==> r == 0
  {
    if i < 0 then (if length + i < 0 then 0 else length + i)
    else if i > length then length
    else i
  }

  /** `s.slice(start, end)`: empty when the resolved start is not before the resolved end. */
  function Slice(s: string, start: int, end: int): (r: string)
    ensures |r| <= |s|
    ensures 0 <= start <= |s| + end <= |s| && end < 0 ==> r == s[start..|s| + end]
    ensures |s| + end <= start ==> r == ""
  {
    var from, to := SliceIndex(start, |s|), SliceIndex(end, |s|);
    if from < to then s[from..to] else ""
  }

  /** One part of a paragraph: a part that starts and ends with `**` is shown bold without them. */
  function RenderPart(part: string): (r: Span)
    ensures r.Bold? <==> StartsWith(part, "**") && EndsWith(part, "**")
    ensures r.Plain? ==> r.text == part
    ensures r.Bold? && |part| >= 4 ==> part == "**" + r.text + "**"
    ensures r.Bold? && |part| < 4 ==> r.text == ""
  {
    if StartsWith(part, "**") && EndsWith(part, "**") then Bold(Slice(part, 2, -2)) else Plain(part)
  }

  /** The source text a span stands for. */
  function Restore(span: Span): string {
    match span
    case Bold(t) => "**" + t + "**"
    case Plain(t) => t
  }

  /** Wrapping any text in `**` and rendering it gives the text back, bold. */
  lemma BoldRoundTrip(text: string)
    ensures RenderPart("**" + text + "**") == Bold(text)
  {
    var part := "**" + text + "**";
    assert StartsWith(part, "**");
    assert part[|part| - 2..] == "**";
    assert part[2..|part| - 2] == text;
  }

  /**
   * Rendering loses nothing for every part except the bare runs `**` and
   * `***`, which start and end with `**` but enclose no text.
   */
  lemma RenderPartLossless(part: string)
    requires part != "**" && part != "***"
    ensures Restore(RenderPart(part)) == part
  {
  }

  /** The two runs that render as an empty bold span. */
  lemma ShortRunsRenderEmpty()
    ensures RenderPart("**") == Bold("") && RenderPart("***") == Bold("")
  {
    assert StartsWith("***", "**") && EndsWith("***", "**");
    assert StartsWith("**", "**") && EndsWith("**", "**");
  }

  /** `s.split(separator)` for a one-character separator, in order, keeping empty pieces. */
  function Split(s: string, separator: char): (pieces: seq<string>)
    ensures |pieces| >= 1
    ensures forall i :: 0 <= i < |pieces| ==> separator !in pieces[i]
    ensures Join(pieces, separator) == s
  {
    if s == [] then [""]
    else
      var rest := Split(s[1..], separator);
      if s[0] == separator then
        assert s == [separator] + s[1..];
        [""] + rest
      else
        JoinFirst([s[0]], rest, separator);
        [[s[0]] + rest[0]] + rest[1..]
  }

  /** The inverse of `Split`: the pieces with the separator between each pair. */
  function Join(pieces: seq<string>, separator: char): string {
    if |pieces| == 0 then ""
    else if |pieces| == 1 then pieces[0]
    else pieces[0] + [separator] + Join(pieces[1..], separator)
  }

  lemma JoinFirst(prefix: string, pieces: seq<string>, separator: char)
    requires |pieces| >= 1
    ensures Join([prefix + pieces[0]] + pieces[1..], separator) == prefix + Join(pieces, separator)
  {
    var joined := [prefix + pieces[0]] + pieces[1..];
    if |pieces| > 1 {
      assert joined[1..] == pieces[1..];
    }
  }

  /** The renderer's blocks: one per line, in order. */
  function Render(content: string): (blocks: seq<Block>)
    ensures |blocks| == |Split(content, '\n')|
    ensures forall i :: 0 <= i < |blocks| ==> blocks[i] == Classify(Split(content, '\n')[i])
  {
    var lines := Split(content, '\n');
    seq(|lines|, i requires 0 <= i < |lines| => Classify(lines[i]))
  }

  /** The source text a block stands for: its marker and text, or the paragraph line. */
  function RestoreBlock(block: Block): string
    requires block.Heading? ==> 1 <= block.level <= 3
  {
    match block
    case Heading(level, text) => Marker(level) + text
    case Paragraph(line) => line
  }

  function RestoreAll(blocks: seq<Block>): (lines: seq<string>)
    requires forall i :: 0 <= i < |blocks| ==> (blocks[i].Heading? ==> 1 <= blocks[i].level <= 3)
    ensures |lines| == |blocks|
    ensures forall i :: 0 <= i < |blocks| ==> lines[i] == RestoreBlock(blocks[i])
  {
    seq(|blocks|, i requires 0 <= i < |blocks| => RestoreBlock(blocks[i]))
  }

  /** Rendering drops no text: the blocks, turned back into lines and joined at newlines, are the content. */
  lemma RenderRoundTrip(content: string)
    ensures forall i :: 0 <= i < |Render(content)| ==> (Render(content)[i].Heading? ==> 1 <= Render(content)[i].level <= 3)
    ensures Join(RestoreAll(Render(content)), '\n') == content
  {
    var lines := Split(content, '\n');
    var blocks := Render(content);
    forall i | 0 <= i < |blocks|
      ensures (blocks[i].Heading? ==> 1 <= blocks[i].level <= 3) && RestoreBlock(blocks[i]) == lines[i]
    {
      assert blocks[i] == Classify(lines[i]);
    }
    assert RestoreAll(blocks) == lines;
  }
}
