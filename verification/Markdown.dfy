/** Documents as block trees: plain-text export, Markdown import, and how far they undo each other. */
module Markdown {
  import opened Wrappers
  import opened Text
  import opened Ordering

  type Uuid = nat

  datatype BlockType =
    | Paragraph | Heading | BulletList | OrderedList | ListItem | Blockquote | CodeBlock | HorizontalRule | Image
        | Unsupported

  /** A block, or a text leaf; marks, image attributes and non-object children do not reach the export. */
  datatype Node =
    | TextNode(text: string)
    | Block(blockType: BlockType, blockId: Uuid, level: Option<nat>, content: seq<Node>)

  // ---- export ----

  function Hashes(n: nat): string {
    seq(n, _ => '#')
  }

  /** The line a block contributes, from the concatenated text of its children. */
  function Render(b: BlockType, level: Option<nat>, inner: string): string {
    var text := Strip(inner);
    if b == HorizontalRule then "\n---\n"
    else if text == "" then text
    else if b == Heading then
      Hashes(if level == None || level.value == 0 then 1 else level.value) + " " + text + "\n"
    else if b == Paragraph || b == CodeBlock || b == ListItem then text + "\n"
    else if b == Blockquote then "> " + text + "\n"
    else text
  }

  /** What a child adds to its block: `_inline_plain` of a text leaf, `_block_plain` of anything else. */
  function Plain(n: Node): string {
    match n
    case TextNode(text) => text
    case Block(b, _, level, content) => Render(b, level, PlainAll(content))
  }

  function PlainAll(ns: seq<Node>): string {
    if ns == [] then "" else PlainAll(ns[..|ns| - 1]) + Plain(ns[|ns| - 1])
  }

  /** `_block_plain` itself, which gives a text leaf's own text to nobody. */
  function BlockText(n: Node): string {
    if n.TextNode? then "" else Plain(n)
  }

  /** The nonempty stripped chunks of the top-level nodes. */
  function Chunks(blocks: seq<Node>): seq<string> {
    if blocks == [] then []
    else
      var chunk := Strip(BlockText(blocks[|blocks| - 1]));
      Chunks(blocks[..|blocks| - 1]) + if chunk == "" then [] else [chunk]
  }

  /** `extract_plain_text`, which is also `document_to_markdown`. */
  function Export(blocks: seq<Node>): string {
    Strip(Join(Chunks(blocks), "\n"))
  }

  // ---- import ----

  function LeadingHashes(s: string): (n: nat)
    ensures n <= |s|
    ensures forall k :: 0 <= k < n ==> s[k] == '#'
    ensures n < |s| ==> s[n] != '#'
  {
    if s == [] || s[0] != '#' then 0 else 1 + LeadingHashes(s[1..])
  }

  /** A heading or a paragraph with its text, before a block id is drawn. */
  datatype Line = HeadingLine(level: nat, text: string) | ParagraphLine(text: string)

  /** The pattern of one to six hashes, white space, and the rest. */
  function ParseLine(stripped: string): Line {
    var n := LeadingHashes(stripped);
    if 1 <= n <= 6 && n < |stripped| && IsSpace(stripped[n])
    then HeadingLine(n, StripLeft(stripped[n..]))
    else ParagraphLine(stripped)
  }

  function ParseLines(lines: seq<string>): seq<Line> {
    if lines == [] then []
    else
      var stripped := Strip(lines[|lines| - 1]);
      ParseLines(lines[..|lines| - 1]) + if stripped == "" then [] else [ParseLine(stripped)]
  }

  function BlockOf(l: Line, id: Uuid): Node {
    match l
    case HeadingLine(level, text) => Block(Heading, id, Some(level), [TextNode(text)])
    case ParagraphLine(text) => Block(Paragraph, id, None, [TextNode(text)])
  }

  /** Blocks for these lines, their ids drawn one after another. */
  function Blocks(lines: seq<Line>, draw: nat -> Uuid): (r: seq<Node>)
    ensures |r| == |lines|
  {
    seq(|lines|, i requires 0 <= i < |lines| => BlockOf(lines[i], draw(i)))
  }

  function Imported(markdown: string): seq<Line> {
    ParseLines(SplitLines(markdown))
  }

  lemma ParseLinesStep(lines: seq<string>, i: nat)
    requires i < |lines|
    ensures ParseLines(lines[..i + 1])
         == if Strip(lines[i]) == "" then ParseLines(lines[..i])
             else ParseLines(lines[..i]) + [ParseLine(Strip(lines[i]))]
  {
    hide Strip;
    hide ParseLine;
    assert lines[..i + 1][..i] == lines[..i];
  }

  lemma BlocksSnoc(ls: seq<Line>, l: Line, draw: nat -> Uuid)
    ensures Blocks(ls + [l], draw) == Blocks(ls, draw) + [BlockOf(l, draw(|ls|))]
  {
    hide BlockOf;
  }

  /** `document_from_markdown`. */
  method DocumentFromMarkdown(markdown: string, draw: nat -> Uuid) returns (blocks: seq<Node>)
    ensures blocks == Blocks(Imported(markdown), draw)
  {
    hide Strip;
    hide LeadingHashes;
    hide StripLeft;
    hide SplitLines;
    hide Blocks;
    hide ParseLines;
    hide IsSpace;
    var lines := SplitLines(markdown);
    blocks := [];
    assert ParseLines(lines[..0]) == [] && Blocks([], draw) == [] by { NothingParsed(lines, draw); }
    for i := 0 to |lines|
      invariant blocks == Blocks(ParseLines(lines[..i]), draw)
    {
      var stripped := Strip(lines[i]);
      ParseLinesStep(lines, i);
      if stripped == "" {
        continue;
      }
      BlocksSnoc(ParseLines(lines[..i]), ParseLine(stripped), draw);
      var hashes := LeadingHashes(stripped);
      var block: Node;
      if 1 <= hashes <= 6 && hashes < |stripped| && IsSpace(stripped[hashes]) {
        block := Block(Heading, draw(|blocks|), Some(hashes), [TextNode(StripLeft(stripped[hashes..]))]);
      } else {
        block := Block(Paragraph, draw(|blocks|), None, [TextNode(stripped)]);
      }
      assert block == BlockOf(ParseLine(stripped), draw(|blocks|));
      blocks := blocks + [block];
    }
    assert lines[..|lines|] == lines;
  }

  lemma NothingParsed(lines: seq<string>, draw: nat -> Uuid)
    ensures ParseLines(lines[..0]) == [] && Blocks([], draw) == []
  {
  }

  /** `extract_plain_text` as the loop that builds it. */
  method ExtractPlainText(blocks: seq<Node>) returns (text: string)
    ensures text == Export(blocks)
  {
    hide Strip;
    hide BlockText;
    hide Join;
    var lines: seq<string> := [];
    for i := 0 to |blocks|
      invariant lines == Chunks(blocks[..i])
    {
      var plain := BlockPlain(blocks[i]);
      var chunk := Strip(plain);
      assert blocks[..i + 1][..i] == blocks[..i];
      if chunk != "" {
        lines := lines + [chunk];
      }
    }
    assert blocks[..|blocks|] == blocks;
    text := Strip(Join(lines, "\n"));
  }

  /** `_block_plain`: children are visited in order and their texts appended. */
  method BlockPlain(node: Node) returns (plain: string)
    ensures plain == BlockText(node)
    decreases node
  {
    hide Render;
    match node
    case TextNode(_) => return "";
    case Block(b, _, level, content) =>
      var inner := "";
      for i := 0 to |content|
        invariant inner == PlainAll(content[..i])
      {
        var child := content[i];
        assert content[..i + 1][..i] == content[..i];
        if child.TextNode? {
          inner := inner + child.text;
        } else {
          var part := BlockPlain(child);
          inner := inner + part;
        }
      }
      assert content[..|content|] == content;
      return Render(b, level, inner);
  }

  // ---- the export spells its document ----

  /** Children are written one after another, in order. */
  lemma {:induction false} PlainAllAppends(a: seq<Node>, b: seq<Node>)
    ensures PlainAll(a + b) == PlainAll(a) + PlainAll(b)
  {
    hide Plain;
    if b == [] {
      AppendNothing(a);
      AppendNothing(PlainAll(a));
    } else {
      var n := |b| - 1;
      assert (a + b)[..|a + b| - 1] == a + b[..n];
      PlainAllAppends(a, b[..n]);
      Regroup(PlainAll(a), PlainAll(b[..n]), Plain(b[n]));
    }
  }

  lemma PlainAllOfOne(n: Node)
    ensures PlainAll([n]) == Plain(n)
  {
    hide Plain;
    var one := [n];
    assert one[..0] == [] && PlainAll(one[..0]) == "";
  }

  /** What a block puts in front of its text. */
  function Marker(b: BlockType, level: Option<nat>): string {
    match b
    case Heading => Hashes(if level == None || level.value == 0 then 1 else level.value)
    case Blockquote => ">"
    case _ => ""
  }

  /** The visible characters a tree stands for: its markers and its text leaves, in reading order. */
  function Spelled(n: Node): string {
    match n
    case TextNode(text) => Ink(text)
    case Block(b, _, level, content) =>
      if b == HorizontalRule then "---"
      else if SpelledAll(content) == "" then ""
      else Marker(b, level) + SpelledAll(content)
  }

  function SpelledAll(ns: seq<Node>): string {
    if ns == [] then "" else Spelled(ns[0]) + SpelledAll(ns[1..])
  }

  lemma {:induction false} InkOfHashes(n: nat)
    ensures Ink(Hashes(n)) == Hashes(n)
  {
    if n > 0 {
      InkOfHashes(n - 1);
      assert Hashes(n)[1..] == Hashes(n - 1);
      assert Hashes(n) == ['#'] + Hashes(n - 1);
    }
  }

  /** The prefix with which a block's text starts. */
  function Prefix(b: BlockType, level: Option<nat>): string {
    match b
    case Heading => Hashes(if level == None || level.value == 0 then 1 else level.value) + " "
    case Blockquote => "> "
    case _ => ""
  }

  /** Lists, images and unsupported blocks do not end their line. */
  predicate EndsLine(b: BlockType) {
    b in {Heading, Paragraph, CodeBlock, ListItem, Blockquote}
  }

  lemma RenderShape(b: BlockType, level: Option<nat>, inner: string)
    requires b != HorizontalRule && Strip(inner) != ""
    ensures Render(b, level, inner)
         == if EndsLine(b) then (Prefix(b, level) + Strip(inner)) + "\n" else Prefix(b, level) + Strip(inner)
  {
    AppendNothing(Strip(inner));
    hide Strip;
  }

  lemma InkOfPrefix(b: BlockType, level: Option<nat>)
    ensures Ink(Prefix(b, level)) == Marker(b, level)
  {
    NewlineIsBlank();
    if b == Heading {
      InkOfHashes(if level == None || level.value == 0 then 1 else level.value);
      InkOfEnd(Marker(b, level), " ");
    } else if b == Blockquote {
      assert Prefix(b, level) == ">" + " ";
      InkOfQuoteMark();
      InkOfEnd(">", " ");
    }
  }

  lemma InkOfQuoteMark()
    ensures Ink(">") == ">"
  {
    assert ">"[1..] == "" && Ink(">"[1..]) == "";
  }

  lemma RenderIsEmpty(b: BlockType, level: Option<nat>, inner: string)
    ensures b == HorizontalRule ==> Render(b, level, inner) == "\n---\n"
    ensures b != HorizontalRule && Strip(inner) == "" ==> Render(b, level, inner) == ""
  {
    hide Strip;
  }

  lemma RenderKeepsInk(b: BlockType, level: Option<nat>, inner: string)
    ensures Ink(Render(b, level, inner)) == if b == HorizontalRule then "---" else if Ink(inner) == "" then ""
            else Marker(b, level) + Ink(inner)
  {
    assert Ink("") == "";
    hide *;
    RenderIsEmpty(b, level, inner);
    if b == HorizontalRule {
      RuleInk();
    } else {
      StripKeepsInk(inner);
      StripIsEmptyIff(inner);
      if Strip(inner) != "" {
        RenderShape(b, level, inner);
        NewlineIsBlank();
        InkOfEnd(Prefix(b, level) + Strip(inner), "\n");
        InkAppends(Prefix(b, level), Strip(inner));
        InkOfPrefix(b, level);
      }
    }
  }

  lemma RuleInk()
    ensures Ink("\n---\n") == "---"
  {
    var s := "\n---\n";
    assert s[1..] == "---\n" && s[1..][1..] == "--\n" && s[1..][1..][1..] == "-\n" && s[1..][1..][1..][1..] == "\n";
    assert "\n"[1..] == "";
  }

  /** Everything a block holds is written, in order and with its markers, and nothing else is. */
  lemma {:induction false} PlainSpells(n: Node)
    ensures Ink(Plain(n)) == Spelled(n)
    decreases n, 0
  {
    hide Render;
    hide Ink;
    hide PlainAll;
    hide SpelledAll;
    if n.Block? {
      ContentSpells(n, |n.content|);
      WholeContentSpells(n.content);
      RenderKeepsInk(n.blockType, n.level, PlainAll(n.content));
    }
  }

  lemma WholeContentSpells(ns: seq<Node>)
    ensures Ink(PlainAll(ns[..|ns|])) + SpelledAll(ns[|ns|..]) == Ink(PlainAll(ns))
  {
    assert ns[..|ns|] == ns && ns[|ns|..] == [] && SpelledAll([]) == "";
    hide *;
    AppendNothing(Ink(PlainAll(ns)));
  }

  lemma {:induction false} ContentSpells(n: Node, k: nat)
    requires n.Block? && k <= |n.content|
    ensures Ink(PlainAll(n.content[..k])) + SpelledAll(n.content[k..]) == SpelledAll(n.content)
    decreases n, 0, k
  {
    var ns := n.content;
    if k == 0 {
      assert ns[..0] == [] && ns[0..] == ns;
    } else {
      ContentSpells(n, k - 1);
      PlainSpells(ns[k - 1]);
      hide *;
      InkAppends(PlainAll(ns[..k - 1]), Plain(ns[k - 1]));
      PlainAllStep(ns, k);
      SpelledAllStep(ns, k - 1);
      Regroup(Ink(PlainAll(ns[..k - 1])), Spelled(ns[k - 1]), SpelledAll(ns[k..]));
    }
  }

  lemma PlainAllStep(ns: seq<Node>, k: nat)
    requires 0 < k <= |ns|
    ensures PlainAll(ns[..k]) == PlainAll(ns[..k - 1]) + Plain(ns[k - 1])
  {
    hide Plain;
    assert ns[..k][..k - 1] == ns[..k - 1];
  }

  lemma SpelledAllStep(ns: seq<Node>, k: nat)
    requires k < |ns|
    ensures SpelledAll(ns[k..]) == Spelled(ns[k]) + SpelledAll(ns[k + 1..])
  {
    hide Spelled;
    assert ns[k..][0] == ns[k] && ns[k..][1..] == ns[k + 1..];
  }

  /** A top-level node that the export does not skip. */
  predicate IsBlock(n: Node) {
    n.Block?
  }

  lemma ChunksStep(nodes: seq<Node>)
    requires nodes != []
    ensures var front, last := nodes[..|nodes| - 1], nodes[|nodes| - 1];
            var chunk := Strip(BlockText(last));
            Chunks(nodes) == if chunk == "" then Chunks(front) else Chunks(front) + [chunk]
  {
    hide Strip;
    hide BlockText;
    AppendNothing(Chunks(nodes[..|nodes| - 1]));
  }

  lemma BlockTextSpells(n: Node)
    ensures Ink(Strip(BlockText(n))) == if IsBlock(n) then Spelled(n) else ""
    ensures Strip(BlockText(n)) == "" ==> Ink(Strip(BlockText(n))) == ""
  {
    StripKeepsInk(BlockText(n));
    PlainSpells(n);
    hide Strip;
    hide Spelled;
    hide Plain;
  }

  lemma SpelledBlocksStep(nodes: seq<Node>)
    requires nodes != []
    ensures var front, last := nodes[..|nodes| - 1], nodes[|nodes| - 1];
            SpelledAll(Filter(nodes, IsBlock))
              == SpelledAll(Filter(front, IsBlock)) + if IsBlock(last) then Spelled(last) else ""
  {
    hide Filter;
    hide SpelledAll;
    hide Spelled;
    var front, last := nodes[..|nodes| - 1], nodes[|nodes| - 1];
    assert nodes == front + [last];
    FilterSnoc(front, last, IsBlock);
    SpelledAllSnoc(Filter(front, IsBlock), last);
    AppendNothing(SpelledAll(Filter(front, IsBlock)));
  }

  lemma {:induction false} ChunksSpell(nodes: seq<Node>)
    ensures Ink(Join(Chunks(nodes), "\n")) == SpelledAll(Filter(nodes, IsBlock))
  {
    if nodes == [] {
      assert Chunks(nodes) == [] && Ink("") == "" && SpelledAll([]) == "";
    } else {
      hide *;
      var front, last := nodes[..|nodes| - 1], nodes[|nodes| - 1];
      var chunk := Strip(BlockText(last));
      ChunksSpell(front);
      ChunksStep(nodes);
      BlockTextSpells(last);
      SpelledBlocksStep(nodes);
      if chunk == "" {
        AppendNothing(SpelledAll(Filter(front, IsBlock)));
      } else {
        InkOfJoin(Chunks(front), chunk);
      }
    }
  }

  lemma {:induction false} SpelledAllSnoc(nodes: seq<Node>, last: Node)
    ensures SpelledAll(nodes + [last]) == SpelledAll(nodes) + Spelled(last)
  {
    hide Spelled;
    if nodes == [] {
      assert nodes + [last] == [last] && [last][1..] == [];
    } else {
      assert (nodes + [last])[1..] == nodes[1..] + [last];
      SpelledAllSnoc(nodes[1..], last);
    }
  }

  /**
   * No visible character is lost, added or moved: white space aside, the export is the markers and text
   * leaves of the top-level blocks in reading order.
   */
  lemma ExportSpellsDocument(nodes: seq<Node>)
    ensures Ink(Export(nodes)) == SpelledAll(Filter(nodes, IsBlock))
  {
    ChunksSpell(nodes);
    StripKeepsInk(Join(Chunks(nodes), "\n"));
    hide *;
    assert Export(nodes) == Strip(Join(Chunks(nodes), "\n")) by { ExportIs(nodes); }
  }

  lemma ExportIs(nodes: seq<Node>)
    ensures Export(nodes) == Strip(Join(Chunks(nodes), "\n"))
  {
  }

  // ---- the export lays its document out in lines ----

  /** A block that holds one line of text. */
  ghost predicate IsItem(n: Node, text: string) {
    && n.Block? && n.blockType in {Paragraph, CodeBlock, ListItem} && n.content == [TextNode(text)]
    && Trimmed(text)
  }

  ghost predicate AreItems(items: seq<Node>, texts: seq<string>) {
    |items| == |texts| && forall i :: 0 <= i < |items| ==> IsItem(items[i], texts[i])
  }

  lemma ItemIsLine(n: Node, text: string)
    requires IsItem(n, text)
    ensures Plain(n) == text + "\n"
  {
    PlainAllOfLeaf(text);
    StripOfTrimmed(text);
    hide Strip;
    hide PlainAll;
    hide Trimmed;
  }

  /** Items are written one to a line. */
  lemma {:induction false} ItemsAreLines(items: seq<Node>, texts: seq<string>)
    requires AreItems(items, texts) && items != []
    ensures PlainAll(items) == Join(texts, "\n") + "\n"
  {
    var n := |items| - 1;
    ItemIsLine(items[n], texts[n]);
    if n == 0 {
      PlainAllOfOne(items[0]);
      assert items == [items[0]];
    } else {
      ItemsAreLines(items[..n], texts[..n]);
      NextLine(items, texts);
    }
  }

  lemma NextLine(items: seq<Node>, texts: seq<string>)
    requires |items| == |texts| > 1
    requires PlainAll(items[..|items| - 1]) == Join(texts[..|texts| - 1], "\n") + "\n"
    requires Plain(items[|items| - 1]) == texts[|texts| - 1] + "\n"
    ensures PlainAll(items) == Join(texts, "\n") + "\n"
  {
    hide *;
    var n := |items| - 1;
    WholeList(items);
    PlainAllStep(items, n + 1);
    FrontAndLast(texts);
    JoinSnoc(texts[..n], texts[n]);
    LineAfterLine(Join(texts[..n], "\n"), texts[n], "\n");
  }

  lemma LineAfterLine<T>(a: seq<T>, b: seq<T>, sep: seq<T>)
    ensures (a + sep) + (b + sep) == (a + (sep + b)) + sep
  {
  }

  lemma WholeList<T>(s: seq<T>)
    ensures s[..|s|] == s
  {
  }

  lemma FrontAndLast<T>(s: seq<T>)
    requires s != []
    ensures s[..|s| - 1] + [s[|s| - 1]] == s
  {
  }

  lemma RenderedLines(b: BlockType, level: Option<nat>, text: string)
    requires b != HorizontalRule && Trimmed(text)
    ensures Strip(Render(b, level, text + "\n")) == Prefix(b, level) + text
  {
    assert text != "";
    hide *;
    StripDropsNewline(text);
    RenderShape(b, level, text + "\n");
    PrefixIsTrimmed(b, level, text);
    StripOfTrimmed(Prefix(b, level) + text);
    StripDropsNewline(Prefix(b, level) + text);
  }

  lemma PrefixIsTrimmed(b: BlockType, level: Option<nat>, text: string)
    requires Trimmed(text)
    ensures Trimmed(Prefix(b, level) + text)
  {
    var p := Prefix(b, level);
    if p != "" {
      assert p[0] in {'#', '>'};
      assert (p + text)[0] == p[0];
    }
    assert (p + text)[|p + text| - 1] == text[|text| - 1];
  }

  /** A block of items is exported as their texts, one to a line, behind the block's own prefix. */
  lemma BlockExportsItsLines(b: BlockType, id: Uuid, level: Option<nat>, items: seq<Node>, texts: seq<string>)
    requires b != HorizontalRule && AreItems(items, texts) && items != []
    ensures Export([Block(b, id, level, items)]) == Prefix(b, level) + Join(texts, "\n")
  {
    ItemsAreLines(items, texts);
    ItemTextsAreTrimmed(items, texts);
    JoinIsTrimmed(texts);
    var block, text := Block(b, id, level, items), Join(texts, "\n");
    assert BlockText(block) == Render(b, level, text + "\n") by { hide Render; }
    RenderedLines(b, level, text);
    PrefixIsTrimmed(b, level, text);
    OneBlockExport(block, Prefix(b, level) + text);
    hide *;
  }

  lemma ItemTextsAreTrimmed(items: seq<Node>, texts: seq<string>)
    requires AreItems(items, texts)
    ensures forall text :: text in texts ==> Trimmed(text)
  {
    hide Trimmed;
    forall text | text in texts ensures Trimmed(text) {
      var i :| 0 <= i < |texts| && texts[i] == text;
      assert IsItem(items[i], texts[i]);
    }
  }

  lemma OneBlockExport(block: Node, line: string)
    requires Strip(BlockText(block)) == line && Trimmed(line)
    ensures Export([block]) == line
  {
    var one := [block];
    assert one[..|one| - 1] == [] && Chunks(one[..|one| - 1]) == [];
    StripOfTrimmed(line);
    assert line != "";
    assert Join([line], "\n") == line;
    hide *;
    ChunksStep(one);
    AppendNothing([line]);
    ExportIs(one);
  }

  /** A rule is exported as three dashes, whatever it holds. */
  lemma RuleExport(id: Uuid, level: Option<nat>, content: seq<Node>)
    ensures Export([Block(HorizontalRule, id, level, content)]) == "---"
  {
    var dashes := "---";
    assert "\n---\n" == "\n" + (dashes + "\n");
    StripDropsNewline(dashes);
    assert Strip("\n" + (dashes + "\n")) == Strip(dashes + "\n") by {
      assert ("\n" + (dashes + "\n"))[1..] == dashes + "\n";
    }
    OneBlockExport(Block(HorizontalRule, id, level, content), dashes);
  }

  // ---- normal forms ----

  /** The Markdown of one imported line: a heading has one space after its hashes. */
  function LineText(l: Line): string {
    match l
    case HeadingLine(level, text) => Hashes(level) + " " + text
    case ParagraphLine(text) => text
  }

  /** What import can produce: one trimmed line of text, a level from 1 to 6, no paragraph that reads as a heading. */
  predicate CleanLine(l: Line) {
    match l
    case HeadingLine(level, text) => 1 <= level <= 6 && Trimmed(text) && OneLine(text)
    case ParagraphLine(text) => Trimmed(text) && OneLine(text) && ParseLine(text) == l
  }

  predicate AllClean(ls: seq<Line>) {
    forall l :: l in ls ==> CleanLine(l)
  }

  function LineTexts(ls: seq<Line>): (r: seq<string>)
    ensures |r| == |ls|
  {
    seq(|ls|, i requires 0 <= i < |ls| => LineText(ls[i]))
  }

  /** A stripped line with the gap after its heading hashes, if it has any, made one space. */
  function Tidied(stripped: string): string {
    var n := LeadingHashes(stripped);
    if 1 <= n <= 6 && n < |stripped| && IsSpace(stripped[n])
    then stripped[..n] + " " + StripLeft(stripped[n..])
    else stripped
  }

  function TidyLines(lines: seq<string>): seq<string> {
    if lines == [] then []
    else
      var stripped := Strip(lines[|lines| - 1]);
      TidyLines(lines[..|lines| - 1]) + if stripped == "" then [] else [Tidied(stripped)]
  }

  /** Lines stripped, blank lines dropped, heading gaps collapsed, one newline between lines. */
  function Normalized(markdown: string): string {
    Join(TidyLines(SplitLines(markdown)), "\n")
  }

  // ---- one line ----

  /** What is left of a line after its leading hashes and the gap behind them. */
  lemma HeadingTextIsTrimmed(stripped: string, n: nat)
    requires Trimmed(stripped) && OneLine(stripped) && n < |stripped|
    ensures Trimmed(StripLeft(stripped[n..])) && OneLine(StripLeft(stripped[n..]))
  {
    hide IsSpace;
    hide IsBreak;
    hide StripLeft;
    var gap := stripped[n..];
    var text := StripLeft(gap);
    assert gap[|gap| - 1] == stripped[|stripped| - 1];
    assert text != [];
    assert text == stripped[|stripped| - |text|..];
  }

  lemma ParsedLineIsClean(stripped: string)
    requires Trimmed(stripped) && OneLine(stripped)
    ensures CleanLine(ParseLine(stripped))
    ensures LineText(ParseLine(stripped)) == Tidied(stripped)
  {
    hide IsSpace;
    hide IsBreak;
    hide StripLeft;
    hide LeadingHashes;
    var n := LeadingHashes(stripped);
    if 1 <= n <= 6 && n < |stripped| && IsSpace(stripped[n]) {
      HeadingTextIsTrimmed(stripped, n);
      assert Hashes(n) == stripped[..n];
    }
  }

  lemma HeadingLineText(level: nat, text: string)
    requires level >= 1 && Trimmed(text) && OneLine(text)
    ensures var s := Hashes(level) + " " + text;
      && Trimmed(s) && OneLine(s)
      && LeadingHashes(s) == level && level < |s| && s[level] == ' ' && s[level..] == " " + text
  {
    var s := Hashes(level) + " " + text;
    assert forall k :: 0 <= k < level ==> s[k] == '#';
    assert s[level] == ' ';
    assert forall k :: level < k < |s| ==> s[k] == text[k - level - 1];
  }

  lemma HeadingReads(level: nat, text: string)
    requires 1 <= level <= 6 && Trimmed(text) && OneLine(text)
    ensures var s := Hashes(level) + " " + text;
            Trimmed(s) && OneLine(s) && ParseLine(s) == HeadingLine(level, text)
  {
    assert IsSpace(' ');
    GapIsStripped(text);
    hide *;
    HeadingLineText(level, text);
    HeadingParses(Hashes(level) + " " + text, level, text);
  }

  lemma GapIsStripped(text: string)
    requires Trimmed(text)
    ensures StripLeft(" " + text) == text
  {
    assert (" " + text)[1..] == text;
  }

  lemma HeadingParses(s: string, level: nat, text: string)
    requires 1 <= level <= 6 && LeadingHashes(s) == level && level < |s| && IsSpace(s[level])
    requires StripLeft(s[level..]) == text
    ensures ParseLine(s) == HeadingLine(level, text)
  {
    hide StripLeft;
    hide LeadingHashes;
    hide IsSpace;
  }

  lemma LineTextReads(l: Line)
    requires CleanLine(l)
    ensures Trimmed(LineText(l)) && OneLine(LineText(l))
    ensures ParseLine(LineText(l)) == l
  {
    hide ParseLine;
    hide Hashes;
    hide Trimmed;
    hide OneLine;
    if l.HeadingLine? {
      HeadingReads(l.level, l.text);
    }
  }

  lemma BlockShowsItsLine(l: Line, id: Uuid)
    requires CleanLine(l)
    ensures Strip(BlockText(BlockOf(l, id))) == LineText(l)
  {
    hide *;
    LineTextReads(l);
    StripDropsNewline(LineText(l));
    BlockTextOf(l, id);
  }

  lemma BlockTextOf(l: Line, id: Uuid)
    requires CleanLine(l)
    ensures BlockText(BlockOf(l, id)) == LineText(l) + "\n"
  {
    hide ParseLine;
    hide Hashes;
    hide Strip;
    hide OneLine;
    StripOfTrimmed(l.text);
    PlainAllOfLeaf(l.text);
    hide PlainAll;
  }

  lemma PlainAllOfLeaf(text: string)
    ensures PlainAll([TextNode(text)]) == text
  {
    assert [TextNode(text)][..0] == [];
  }

  // ---- whole documents ----

  lemma {:induction false} ParsedLinesAreClean(lines: seq<string>)
    requires forall s :: s in lines ==> OneLine(s)
    ensures AllClean(ParseLines(lines))
    ensures LineTexts(ParseLines(lines)) == TidyLines(lines)
  {
    hide ParseLine;
    hide CleanLine;
    hide LineText;
    hide Tidied;
    hide Strip;
    hide OneLine;
    if lines != [] {
      var last := lines[|lines| - 1];
      ParsedLinesAreClean(lines[..|lines| - 1]);
      StripIsTrimmed(last);
      if Strip(last) != "" {
        ParsedLineIsClean(Strip(last));
      }
    }
  }

  /** Import produces only clean lines. */
  lemma ImportIsClean(markdown: string)
    ensures AllClean(Imported(markdown))
    ensures Join(LineTexts(Imported(markdown)), "\n") == Normalized(markdown)
  {
    LinesHaveNoBreaks(markdown);
    ParsedLinesAreClean(SplitLines(markdown));
  }

  lemma ChunksSnoc(blocks: seq<Node>, block: Node)
    requires Strip(BlockText(block)) != ""
    ensures Chunks(blocks + [block]) == Chunks(blocks) + [Strip(BlockText(block))]
  {
    hide Strip;
    hide BlockText;
    assert (blocks + [block])[..|blocks + [block]| - 1] == blocks;
  }

  lemma LineTextsSnoc(ls: seq<Line>, l: Line)
    ensures LineTexts(ls + [l]) == LineTexts(ls) + [LineText(l)]
  {
    hide LineText;
  }

  lemma {:induction false} ChunksAreLineTexts(ls: seq<Line>, draw: nat -> Uuid)
    requires AllClean(ls)
    ensures Chunks(Blocks(ls, draw)) == LineTexts(ls)
  {
    if ls != [] {
      hide *;
      var front, last := ls[..|ls| - 1], ls[|ls| - 1];
      assert ls == front + [last];
      assert last in ls;
      ChunksAreLineTexts(front, draw);
      LineTextIsNotEmpty(last);
      BlocksSnoc(front, last, draw);
      LineTextsSnoc(front, last);
      BlockShowsItsLine(last, draw(|front|));
      ChunksSnoc(Blocks(front, draw), BlockOf(last, draw(|front|)));
    }
  }

  lemma LineTextIsNotEmpty(l: Line)
    requires CleanLine(l)
    ensures LineText(l) != ""
  {
    LineTextReads(l);
  }

  lemma {:induction false} LineTextsRead(ls: seq<Line>)
    requires AllClean(ls)
    ensures forall s :: s in LineTexts(ls) ==> Trimmed(s) && OneLine(s)
    ensures ParseLines(LineTexts(ls)) == ls
  {
    hide CleanLine;
    hide LineText;
    hide Strip;
    hide ParseLine;
    if ls != [] {
      var front := ls[..|ls| - 1];
      var last := ls[|ls| - 1];
      assert last in ls;
      LineTextsRead(front);
      LineTextReads(last);
      StripOfTrimmed(LineText(last));
      assert LineTexts(ls) == LineTexts(front) + [LineText(last)];
      assert LineTexts(ls)[..|front|] == LineTexts(front);
    }
  }

  /** The export of a flat document of clean lines is their Markdown, whatever ids the blocks drew. */
  lemma ExportOfCleanLines(ls: seq<Line>, draw: nat -> Uuid)
    requires AllClean(ls)
    ensures Export(Blocks(ls, draw)) == Join(LineTexts(ls), "\n")
  {
    ChunksAreLineTexts(ls, draw);
    LineTextsRead(ls);
    if ls != [] {
      JoinIsTrimmed(LineTexts(ls));
      StripOfTrimmed(Join(LineTexts(ls), "\n"));
    }
  }

  /** Exporting what was imported gives the normal form of the Markdown. */
  lemma ExportOfImport(markdown: string, draw: nat -> Uuid)
    ensures Export(Blocks(Imported(markdown), draw)) == Normalized(markdown)
  {
    ImportIsClean(markdown);
    ExportOfCleanLines(Imported(markdown), draw);
  }

  /** Importing again what a flat document exports gives the document back, ids aside, exactly when import can
      produce it. */
  lemma RoundTripIff(ls: seq<Line>, draw: nat -> Uuid)
    ensures Imported(Export(Blocks(ls, draw))) == ls <==> AllClean(ls)
  {
    ImportIsClean(Export(Blocks(ls, draw)));
    if AllClean(ls) {
      hide *;
      ExportOfCleanLines(ls, draw);
      CleanLinesRead(ls);
    }
  }

  lemma CleanLinesRead(ls: seq<Line>)
    requires AllClean(ls)
    ensures Imported(Join(LineTexts(ls), "\n")) == ls
  {
    hide AllClean;
    hide LineTexts;
    hide ParseLines;
    hide SplitLines;
    hide Join;
    hide OneLine;
    LineTextsRead(ls);
    assert PlainLines(LineTexts(ls));
    SplitJoin(LineTexts(ls));
  }

  /** Import, export, import: the second import sees what the first one saw. */
  lemma ReimportIsStable(markdown: string, draw: nat -> Uuid)
    ensures Imported(Export(Blocks(Imported(markdown), draw))) == Imported(markdown)
    ensures Imported(Normalized(markdown)) == Imported(markdown)
  {
    ImportIsClean(markdown);
    RoundTripIff(Imported(markdown), draw);
    ExportOfImport(markdown, draw);
  }

  lemma NormalizedIsIdempotent(markdown: string)
    ensures Normalized(Normalized(markdown)) == Normalized(markdown)
  {
    ReimportIsStable(markdown, i => i);
    ImportIsClean(markdown);
    ImportIsClean(Normalized(markdown));
  }

  /** Two Markdown texts import to the same document, ids aside, exactly when they have the same normal form. */
  lemma SameImportIffSameNormalForm(a: string, b: string)
    ensures Imported(a) == Imported(b) <==> Normalized(a) == Normalized(b)
  {
    ReimportIsStable(a, i => i);
    ReimportIsStable(b, i => i);
    ImportIsClean(a);
    ImportIsClean(b);
  }
}
