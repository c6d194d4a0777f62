/** The editor's JSON tree and the stored document: normalising one into the other and going back. */
module TipTap {
  import opened Wrappers

  datatype Json =
    | Null
    | Bool(b: bool)
    | Number(n: real)
    | Str(s: string)
    | Array(items: seq<Json>)
    | Object(fields: map<string, Json>)

  datatype Attrs = Attrs(blockId: string, level: Option<real>, src: Option<string>, alt: Option<string>)

  datatype MemdotBlock = MemdotBlock(blockType: string, attrs: Attrs, content: Option<seq<Json>>)

  datatype MemdotDocument = MemdotDocument(documentId: string, blocks: seq<MemdotBlock>)

  const BLOCK_TYPES := {
    "bulletList", "orderedList", "listItem", "blockquote", "codeBlock", "horizontalRule", "heading",
    "paragraph", "image"}

  const UNSUPPORTED := "unsupported_block"

  /** A property read; reading from anything but an object with that key gives nothing. */
  function Get(j: Json, key: string): (r: Option<Json>)
    ensures r.Some? ==> r.value < j
  {
    if j.Object? && key in j.fields then Some(j.fields[key]) else None
  }

  predicate Falsy(j: Json) {
    j == Null || j == Bool(false) || j == Number(0.0) || j == Str("")
  }

  /** `record.type || "paragraph"`. */
  function RawType(node: Json): Json {
    var t := Get(node, "type");
    if t.None? || Falsy(t.value) then Str("paragraph") else t.value
  }

  function MapType(t: Json): string {
    if t.Str? && t.s in BLOCK_TYPES then t.s else UNSUPPORTED
  }

  function Attr(node: Json, key: string): Option<Json> {
    var attrs := Get(node, "attrs");
    if attrs.None? then None else Get(attrs.value, key)
  }

  function AttrString(node: Json, key: string): Option<string> {
    var a := Attr(node, key);
    if a.Some? && a.value.Str? then Some(a.value.s) else None
  }

  function LevelOf(node: Json): Option<real> {
    var a := Attr(node, "level");
    if a.Some? && a.value.Number? then Some(a.value.n)
    else if RawType(node) == Str("heading") then Some(2.0)
    else None
  }

  /** The block id a node brings along, if it is a nonempty string. */
  function OwnId(node: Json): Option<string> {
    var a := AttrString(node, "blockId");
    if a.Some? && a.value != "" then a else None
  }

  function ContentOf(node: Json): (r: Option<seq<Json>>)
    ensures r.Some? ==> Get(node, "content") == Some(Array(r.value))
  {
    var c := Get(node, "content");
    if c.Some? && c.value.Array? then Some(c.value.items) else None
  }

  /** Returned as they are by `normalizeInline`: everything that is not an object, text leaves and hard breaks. */
  predicate IsLeaf(node: Json) {
    || !(node.Array? || node.Object?)
    || Get(node, "type") == Some(Str("text"))
    || Get(node, "type") == Some(Str("hardBreak"))
  }

  // ---- normalising ----

  function Given(key: string, value: Option<Json>): map<string, Json> {
    if value.Some? then map[key := value.value] else map[]
  }

  function StrOf(s: Option<string>): Option<Json> {
    if s.Some? then Some(Str(s.value)) else None
  }

  function AttrsJson(a: Attrs): Json {
    Object(map["blockId" := Str(a.blockId)]
           + Given("level", if a.level.Some? then Some(Number(a.level.value)) else None)
           + Given("src", StrOf(a.src)) + Given("alt", StrOf(a.alt)))
  }

  /** A block as the object it is; absent content is an absent key. */
  function BlockJson(b: MemdotBlock): Json {
    Object(map["type" := Str(b.blockType), "attrs" := AttrsJson(b.attrs)]
           + Given("content", if b.content.Some? then Some(Array(b.content.value)) else None))
  }

  /** The block a node is normalised to, with the number of ids drawn before and after. */
  function BlockOf(node: Json, draw: nat -> string, n: nat): (MemdotBlock, nat)
    decreases node, 0
  {
    var id := OwnId(node);
    var attrs := Attrs(if id.Some? then id.value else draw(n), LevelOf(node),
                       AttrString(node, "src"), AttrString(node, "alt"));
    var m := if id.Some? then n else n + 1;
    match ContentOf(node)
    case None => (MemdotBlock(MapType(RawType(node)), attrs, None), m)
    case Some(items) =>
      var (content, k) := ItemsOf(items, draw, m);
      (MemdotBlock(MapType(RawType(node)), attrs, Some(content)), k)
  }

  function InlineOf(node: Json, draw: nat -> string, n: nat): (Json, nat)
    decreases node, 1
  {
    if IsLeaf(node) then (node, n)
    else
      var (b, m) := BlockOf(node, draw, n);
      (BlockJson(b), m)
  }

  function ItemsOf(items: seq<Json>, draw: nat -> string, n: nat): (r: (seq<Json>, nat))
    ensures |r.0| == |items|
    decreases items, 0
  {
    if items == [] then ([], n)
    else
      var (front, m) := ItemsOf(items[..|items| - 1], draw, n);
      var (last, k) := InlineOf(items[|items| - 1], draw, m);
      (front + [last], k)
  }

  function BlocksOf(nodes: seq<Json>, draw: nat -> string, n: nat): (r: (seq<MemdotBlock>, nat))
    ensures |r.0| == |nodes|
  {
    if nodes == [] then ([], n)
    else
      var (front, m) := BlocksOf(nodes[..|nodes| - 1], draw, n);
      var (last, k) := BlockOf(nodes[|nodes| - 1], draw, m);
      (front + [last], k)
  }

  /** A document always has a block: an empty one gets an empty paragraph. */
  function DocumentOf(id: string, content: Option<seq<Json>>, draw: nat -> string, n: nat): MemdotDocument {
    var (blocks, m) := BlocksOf(content.GetOr([]), draw, n);
    MemdotDocument(id,
                   if blocks == [] then [MemdotBlock("paragraph", Attrs(draw(m), None, None, None), Some([]))]
                   else blocks)
  }

  /** `memdotToTipTap`, one block: only a top-level unsupported block changes type, and content is always there. */
  function TipTapOf(b: MemdotBlock): Json {
    Object(map["type" := Str(if b.blockType == UNSUPPORTED then "paragraph" else b.blockType),
               "attrs" := AttrsJson(b.attrs),
               "content" := Array(b.content.GetOr([]))])
  }

  function MemdotToTipTap(d: MemdotDocument): (r: seq<Json>)
    ensures |r| == |d.blocks|
  {
    seq(|d.blocks|, i requires 0 <= i < |d.blocks| => TipTapOf(d.blocks[i]))
  }

  /** The source of fresh block ids, `draw(k)` being the k-th random UUID. */
  class BlockIdSource {
    const draw: nat -> string
    var drawn: nat

    constructor (draw: nat -> string)
      ensures this.draw == draw && drawn == 0
    {
      this.draw := draw;
      drawn := 0;
    }

    method NewBlockId() returns (id: string)
      modifies this
      ensures id == draw(old(drawn)) && drawn == old(drawn) + 1
    {
      id := draw(drawn);
      drawn := drawn + 1;
    }

    /** `normalizeBlock`: the result is built up field by field. */
    method NormalizeBlock(node: Json) returns (next: MemdotBlock)
      modifies this
      ensures (next, drawn) == BlockOf(node, draw, old(drawn))
      decreases node, 0
    {
      hide MapType;
      var blockId: string;
      if OwnId(node).Some? {
        blockId := OwnId(node).value;
      } else {
        blockId := NewBlockId();
      }
      next := MemdotBlock(MapType(RawType(node)), Attrs(blockId, None, None, None), None);
      var level := Attr(node, "level");
      if level.Some? && level.value.Number? {
        next := next.(attrs := next.attrs.(level := Some(level.value.n)));
      }
      if RawType(node) == Str("heading") && next.attrs.level.None? {
        next := next.(attrs := next.attrs.(level := Some(2.0)));
      }
      next := next.(attrs := next.attrs.(src := AttrString(node, "src"), alt := AttrString(node, "alt")));
      if ContentOf(node).Some? {
        var content := NormalizeItems(ContentOf(node).value);
        next := next.(content := Some(content));
      }
    }

    method NormalizeItems(items: seq<Json>) returns (content: seq<Json>)
      modifies this
      ensures (content, drawn) == ItemsOf(items, draw, old(drawn))
      decreases items, 0
    {
      content := [];
      for i := 0 to |items|
        invariant (content, drawn) == ItemsOf(items[..i], draw, old(drawn))
      {
        assert items[..i + 1][..i] == items[..i];
        var child := NormalizeInline(items[i]);
        content := content + [child];
      }
      assert items[..|items|] == items;
    }

    method NormalizeInline(node: Json) returns (inline: Json)
      modifies this
      ensures (inline, drawn) == InlineOf(node, draw, old(drawn))
      decreases node, 1
    {
      if IsLeaf(node) {
        return node;
      }
      var block := NormalizeBlock(node);
      inline := BlockJson(block);
    }

    /** `tipTapToMemdot`. */
    method TipTapToMemdot(documentId: string, content: Option<seq<Json>>) returns (d: MemdotDocument)
      modifies this
      ensures d == DocumentOf(documentId, content, draw, old(drawn))
    {
      var nodes := content.GetOr([]);
      var blocks: seq<MemdotBlock> := [];
      for i := 0 to |nodes|
        invariant (blocks, drawn) == BlocksOf(nodes[..i], draw, old(drawn))
      {
        assert nodes[..i + 1][..i] == nodes[..i];
        var block := NormalizeBlock(nodes[i]);
        blocks := blocks + [block];
      }
      assert nodes[..|nodes|] == nodes;
      if blocks == [] {
        var id := NewBlockId();
        blocks := [MemdotBlock("paragraph", Attrs(id, None, None, None), Some([]))];
      }
      d := MemdotDocument(documentId, blocks);
    }
  }

  // ---- settled trees: what normalising leaves alone ----

  /** The block that an object spells, if it spells one. */
  function Read(j: Json): MemdotBlock {
    var t, level := Get(j, "type"), Attr(j, "level");
    MemdotBlock(
      if t.Some? && t.value.Str? then t.value.s else "",
      Attrs(AttrString(j, "blockId").GetOr(""),
            if level.Some? && level.value.Number? then Some(level.value.n) else None,
            AttrString(j, "src"), AttrString(j, "alt")),
      ContentOf(j))
  }

  /** A supported or explicitly unsupported type, an id, and a level on every heading. */
  predicate SettledHead(b: MemdotBlock) {
    && b.attrs.blockId != ""
    && (b.blockType in BLOCK_TYPES || b.blockType == UNSUPPORTED)
    && (b.blockType == "heading" ==> b.attrs.level.Some?)
  }

  /** Leaves, and blocks with no key but the stored ones, settled all the way down. */
  predicate SettledInline(j: Json)
    decreases j
  {
    || IsLeaf(j)
    || (&& j == BlockJson(Read(j))
        && SettledHead(Read(j))
        && match ContentOf(j) case None => true case Some(items) => SettledItems(items))
  }

  predicate SettledItems(items: seq<Json>)
    decreases items
  {
    items == [] || (SettledItems(items[..|items| - 1]) && SettledInline(items[|items| - 1]))
  }

  predicate Settled(b: MemdotBlock) {
    SettledHead(b) && (b.content.Some? ==> SettledItems(b.content.value))
  }

  // ---- what a normalised node says ----

  /** A field of an object; anything else has none. */
  ghost predicate HasField(j: Json, key: string, value: Json) {
    j.Object? && key in j.fields && j.fields[key] == value
  }

  ghost predicate HasAttr(node: Json, key: string, value: Json) {
    exists attrs :: HasField(node, "attrs", attrs) && HasField(attrs, key, value)
  }

  lemma AttrReads(node: Json, key: string, value: Json)
    ensures HasAttr(node, key, value) <==> Attr(node, key) == Some(value)
  {
    if Attr(node, key) == Some(value) {
      assert HasField(node, "attrs", node.fields["attrs"]);
    }
  }

  /** A missing or falsy type makes a paragraph, a known one is kept, any other is unsupported. */
  lemma TypeIsNormalized(node: Json, draw: nat -> string, n: nat)
    ensures var t := BlockOf(node, draw, n).0.blockType;
            var missing := forall value :: HasField(node, "type", value) ==>
                             value in {Null, Bool(false), Number(0.0), Str("")};
      && (missing ==> t == "paragraph")
      && (!missing ==> if exists name :: name in BLOCK_TYPES && HasField(node, "type", Str(name))
                       then HasField(node, "type", Str(t)) else t == "unsupported_block")
  {
    if node.Object? && "type" in node.fields {
      assert HasField(node, "type", node.fields["type"]);
    }
    assert BlockOf(node, draw, n).0.blockType == MapType(RawType(node)) by { hide ItemsOf, MapType, RawType; }
    hide BlockOf;
  }

  /** The id, the level and the two image attributes of a normalised node. */
  lemma AttrsAreNormalized(node: Json, draw: nat -> string, n: nat)
    ensures var a := BlockOf(node, draw, n).0.attrs;
      && (forall id :: id != "" && HasAttr(node, "blockId", Str(id)) ==> a.blockId == id)
      && ((forall id :: HasAttr(node, "blockId", Str(id)) ==> id == "") ==> a.blockId == draw(n))
      && (forall x: real :: HasAttr(node, "level", Number(x)) ==> a.level == Some(x))
      && ((forall x: real :: !HasAttr(node, "level", Number(x))) ==>
            a.level == if HasField(node, "type", Str("heading")) then Some(2.0) else None)
      && (forall s :: a.src == Some(s) <==> HasAttr(node, "src", Str(s)))
      && (forall s :: a.alt == Some(s) <==> HasAttr(node, "alt", Str(s)))
  {
    forall key, value { AttrReads(node, key, value); }
    AttrsOf(node, draw, n);
    if Attr(node, "level").Some? && Attr(node, "level").value.Number? {
      assert HasAttr(node, "level", Number(Attr(node, "level").value.n));
    }
    if OwnId(node).Some? {
      assert HasAttr(node, "blockId", Str(OwnId(node).value));
    }
    hide HasAttr;
    hide BlockOf;
  }

  lemma AttrsOf(node: Json, draw: nat -> string, n: nat)
    ensures BlockOf(node, draw, n).0.attrs
         == Attrs(OwnId(node).GetOr(draw(n)), LevelOf(node), AttrString(node, "src"), AttrString(node, "alt"))
  {
    hide ItemsOf, OwnId, LevelOf, AttrString, MapType, RawType;
  }

  /** Children stay one for one; primitives, text leaves and hard breaks are not touched, and all else is a block. */
  lemma ContentIsNormalized(node: Json, draw: nat -> string, n: nat)
    ensures var content := BlockOf(node, draw, n).0.content;
      && (content.Some? <==> exists items :: HasField(node, "content", Array(items)))
      && (forall items :: HasField(node, "content", Array(items)) && content.Some? ==> |content.value| == |items|)
  {
    if ContentOf(node).Some? {
      assert HasField(node, "content", Array(ContentOf(node).value));
    }
    hide MapType, RawType, OwnId, LevelOf, AttrString;
  }

  lemma ChildIsNormalized(node: Json, draw: nat -> string, n: nat)
    ensures var leaf := !(node.Array? || node.Object?) || HasField(node, "type", Str("text"))
                        || HasField(node, "type", Str("hardBreak"));
            && (leaf ==> InlineOf(node, draw, n) == (node, n))
            && (!leaf ==> InlineOf(node, draw, n) == (BlockJson(BlockOf(node, draw, n).0), BlockOf(node, draw, n).1))
  {
  }

  /** Every top-level node becomes one block in its place; a document without one gets one empty paragraph. */
  lemma DocumentKeepsItsNodes(id: string, nodes: seq<Json>, draw: nat -> string, n: nat)
    ensures var d := DocumentOf(id, Some(nodes), draw, n);
      && d.documentId == id && DocumentOf(id, None, draw, n) == DocumentOf(id, Some([]), draw, n)
      && (nodes == [] ==> d.blocks == [MemdotBlock("paragraph", Attrs(draw(n), None, None, None), Some([]))])
      && (nodes != [] ==>
            && |d.blocks| == |nodes|
            && forall i :: 0 <= i < |nodes| ==> ComesFrom(d.blocks[i], nodes[i], draw))
  {
    BlocksInPlace(nodes, draw, n);
    hide BlockOf;
    hide ComesFrom;
  }

  /** The block that this node becomes, whatever number of ids was drawn before it. */
  ghost predicate ComesFrom(b: MemdotBlock, node: Json, draw: nat -> string) {
    exists k: nat :: b == BlockOf(node, draw, k).0
  }

  lemma {:induction false} BlocksInPlace(nodes: seq<Json>, draw: nat -> string, n: nat)
    ensures forall i :: 0 <= i < |nodes| ==> ComesFrom(BlocksOf(nodes, draw, n).0[i], nodes[i], draw)
  {
    if nodes != [] {
      hide *;
      var m := |nodes| - 1;
      var front := BlocksOf(nodes[..m], draw, n);
      BlocksInPlace(nodes[..m], draw, n);
      BlocksOfStep(nodes, draw, n);
      BlockComesFrom(nodes[m], draw, front.1);
      forall i | 0 <= i < |nodes| ensures ComesFrom(BlocksOf(nodes, draw, n).0[i], nodes[i], draw) {
        if i < m { assert nodes[..m][i] == nodes[i]; }
      }
    }
  }

  lemma BlockComesFrom(node: Json, draw: nat -> string, k: nat)
    ensures ComesFrom(BlockOf(node, draw, k).0, node, draw)
  {
    hide BlockOf;
  }

  // ---- the list functions, one more item at the end ----

  lemma SnocParts<T>(a: seq<T>, x: T)
    ensures (a + [x])[..|a + [x]| - 1] == a && (a + [x])[|a + [x]| - 1] == x
  {
  }

  lemma FrontAndLast<T>(s: seq<T>)
    requires s != []
    ensures s[..|s| - 1] + [s[|s| - 1]] == s
  {
  }

  lemma ItemsOfStep(items: seq<Json>, draw: nat -> string, n: nat)
    requires items != []
    ensures var front := ItemsOf(items[..|items| - 1], draw, n);
            var last := InlineOf(items[|items| - 1], draw, front.1);
            ItemsOf(items, draw, n) == (front.0 + [last.0], last.1)
  {
    hide InlineOf;
  }

  lemma BlocksOfStep(nodes: seq<Json>, draw: nat -> string, n: nat)
    requires nodes != []
    ensures var front := BlocksOf(nodes[..|nodes| - 1], draw, n);
            var last := BlockOf(nodes[|nodes| - 1], draw, front.1);
            BlocksOf(nodes, draw, n) == (front.0 + [last.0], last.1)
  {
    hide BlockOf;
  }

  lemma SettledItemsStep(items: seq<Json>)
    requires items != []
    ensures SettledItems(items) <==> SettledItems(items[..|items| - 1]) && SettledInline(items[|items| - 1])
  {
    hide SettledInline;
  }

  lemma SettledItemsSnoc(a: seq<Json>, x: Json)
    ensures SettledItems(a + [x]) <==> SettledItems(a) && SettledInline(x)
  {
    hide SettledInline;
    SnocParts(a, x);
  }

  /** Every id the source draws is a nonempty string. */
  ghost predicate DrawsIds(draw: nat -> string) {
    forall k :: draw(k) != ""
  }

  lemma AttrsReadBack(a: Attrs)
    ensures Get(AttrsJson(a), "blockId") == Some(Str(a.blockId))
    ensures Get(AttrsJson(a), "level") == if a.level.Some? then Some(Number(a.level.value)) else None
    ensures Get(AttrsJson(a), "src") == StrOf(a.src) && Get(AttrsJson(a), "alt") == StrOf(a.alt)
  {
  }

  lemma ReadsBack(b: MemdotBlock)
    ensures Read(BlockJson(b)) == b
    ensures OwnId(BlockJson(b)) == if b.attrs.blockId == "" then None else Some(b.attrs.blockId)
    ensures AttrString(BlockJson(b), "src") == b.attrs.src && AttrString(BlockJson(b), "alt") == b.attrs.alt
    ensures Get(BlockJson(b), "type") == Some(Str(b.blockType)) && ContentOf(BlockJson(b)) == b.content
    ensures LevelOf(BlockJson(b)) == if b.attrs.level.Some? then b.attrs.level
            else if b.blockType == "heading" then Some(2.0) else None
  {
    AttrsReadBack(b.attrs);
    hide AttrsJson;
    assert Get(BlockJson(b), "attrs") == Some(AttrsJson(b.attrs));
    assert Get(BlockJson(b), "type") == Some(Str(b.blockType));
    assert ContentOf(BlockJson(b)) == b.content;
    hide BlockJson;
  }

  lemma SettledBlockIsInline(b: MemdotBlock)
    requires SettledHead(b)
    ensures !IsLeaf(BlockJson(b))
    ensures SettledInline(BlockJson(b)) <==> Settled(b)
  {
    ReadsBack(b);
  }

  lemma MappedTypeIsKnown(t: Json)
    ensures MapType(t) in BLOCK_TYPES || MapType(t) == UNSUPPORTED
    ensures MapType(t) == "heading" <==> t == Str("heading")
    ensures MapType(t) != "text" && MapType(t) != "hardBreak"
  {
  }

  /** Whatever goes in, what comes out is settled. */
  lemma {:induction false} NormalizingSettles(node: Json, draw: nat -> string, n: nat)
    requires DrawsIds(draw)
    ensures Settled(BlockOf(node, draw, n).0)
    decreases node, 0
  {
    hide MapType;
    MappedTypeIsKnown(RawType(node));
    if ContentOf(node).Some? {
      ItemsSettle(ContentOf(node).value, draw, if OwnId(node).Some? then n else n + 1);
    }
  }

  lemma {:induction false} InlineSettles(node: Json, draw: nat -> string, n: nat)
    requires DrawsIds(draw)
    ensures SettledInline(InlineOf(node, draw, n).0)
    decreases node, 1
  {
    if !IsLeaf(node) {
      NormalizingSettles(node, draw, n);
      SettledBlockIsInline(BlockOf(node, draw, n).0);
    }
  }

  lemma {:induction false} ItemsSettle(items: seq<Json>, draw: nat -> string, n: nat)
    requires DrawsIds(draw)
    ensures SettledItems(ItemsOf(items, draw, n).0)
    decreases items, 0
  {
    if items != [] {
      var before, last := items[..|items| - 1], items[|items| - 1];
      var front := ItemsOf(before, draw, n);
      ItemsSettle(before, draw, n);
      InlineSettles(last, draw, front.1);
      hide *;
      ItemsOfStep(items, draw, n);
      SettledItemsSnoc(front.0, InlineOf(last, draw, front.1).0);
    }
  }

  /** A settled tree is left exactly as it is, and no id is drawn. */
  lemma {:induction false} SettledIsKept(b: MemdotBlock, draw: nat -> string, n: nat)
    requires Settled(b)
    ensures BlockOf(BlockJson(b), draw, n) == (b, n)
    decreases BlockJson(b), 0
  {
    ReadsBack(b);
    if b.content.Some? {
      SettledItemsAreKept(b.content.value, draw, n);
    }
  }

  lemma {:induction false} SettledInlineIsKept(j: Json, draw: nat -> string, n: nat)
    requires SettledInline(j)
    ensures InlineOf(j, draw, n) == (j, n)
    decreases j, 1
  {
    if !IsLeaf(j) {
      SettledIsKept(Read(j), draw, n);
    }
  }

  lemma {:induction false} SettledItemsAreKept(items: seq<Json>, draw: nat -> string, n: nat)
    requires SettledItems(items)
    ensures ItemsOf(items, draw, n) == (items, n)
    decreases items, 0
  {
    if items != [] {
      hide *;
      var before, last := items[..|items| - 1], items[|items| - 1];
      SettledItemsStep(items);
      SettledItemsAreKept(before, draw, n);
      SettledInlineIsKept(last, draw, n);
      ItemsOfStep(items, draw, n);
      FrontAndLast(items);
    }
  }

  // ---- what normalising promises ----

  /** Normalising twice is normalising once; the second time draws nothing. */
  lemma NormalizingIsIdempotent(node: Json, draw: nat -> string, n: nat, m: nat)
    requires DrawsIds(draw)
    ensures var once := BlockOf(node, draw, n).0;
            BlockOf(BlockJson(once), draw, m) == (once, m)
  {
    NormalizingSettles(node, draw, n);
    SettledIsKept(BlockOf(node, draw, n).0, draw, m);
  }

  /** Exactly the settled children are left alone. */
  lemma KeptIffSettled(j: Json, draw: nat -> string, n: nat)
    requires DrawsIds(draw)
    ensures InlineOf(j, draw, n).0 == j <==> SettledInline(j)
  {
    InlineSettles(j, draw, n);
    if SettledInline(j) {
      SettledInlineIsKept(j, draw, n);
    }
  }

  /** A block with absent content written as empty content. */
  function Filled(b: MemdotBlock): MemdotBlock {
    b.(content := Some(b.content.GetOr([])))
  }

  /** What the editor shows for a stored block, as a block. */
  function ShownOf(b: MemdotBlock): MemdotBlock {
    Filled(b).(blockType := if b.blockType == UNSUPPORTED then "paragraph" else b.blockType)
  }

  lemma TipTapShows(b: MemdotBlock)
    ensures TipTapOf(b) == BlockJson(ShownOf(b))
  {
  }

  lemma ParagraphStays(b: MemdotBlock, draw: nat -> string, n: nat)
    requires b.blockType == "paragraph"
    ensures BlockOf(BlockJson(b), draw, n).0.blockType == "paragraph"
  {
    ReadsBack(b);
    hide BlockJson;
    assert RawType(BlockJson(b)) == Str("paragraph");
  }

  lemma BlockRoundTripIff(b: MemdotBlock, draw: nat -> string, n: nat)
    requires DrawsIds(draw)
    ensures BlockOf(TipTapOf(b), draw, n).0 == Filled(b) <==> Settled(b) && b.blockType != UNSUPPORTED
    ensures Settled(b) && b.blockType != UNSUPPORTED ==> BlockOf(TipTapOf(b), draw, n).1 == n
  {
    hide *;
    TipTapShows(b);
    if b.blockType == UNSUPPORTED {
      UnsupportedIsShownAsParagraph(b);
      ParagraphStays(ShownOf(b), draw, n);
    } else {
      SupportedIsShownFilled(b);
      FilledIsSettledIff(b);
      NormalizingSettles(TipTapOf(b), draw, n);
      if Settled(b) {
        SettledIsKept(Filled(b), draw, n);
      }
    }
  }

  lemma UnsupportedIsShownAsParagraph(b: MemdotBlock)
    requires b.blockType == UNSUPPORTED
    ensures ShownOf(b).blockType == "paragraph" != Filled(b).blockType
  {
  }

  lemma SupportedIsShownFilled(b: MemdotBlock)
    requires b.blockType != UNSUPPORTED
    ensures ShownOf(b) == Filled(b)
  {
  }

  lemma FilledIsSettledIff(b: MemdotBlock)
    ensures Settled(Filled(b)) <==> Settled(b)
  {
  }

  function AllFilled(bs: seq<MemdotBlock>): (r: seq<MemdotBlock>)
    ensures |r| == |bs|
  {
    seq(|bs|, i requires 0 <= i < |bs| => Filled(bs[i]))
  }

  predicate Returns(b: MemdotBlock) {
    Settled(b) && b.blockType != UNSUPPORTED
  }

  lemma SnocsEqualIff<T>(a: seq<T>, x: T, b: seq<T>, y: T)
    requires |a| == |b|
    ensures a + [x] == b + [y] <==> a == b && x == y
  {
    if a + [x] == b + [y] {
      assert (a + [x])[..|a|] == a && (b + [y])[..|b|] == b;
      assert (a + [x])[|a|] == x && (b + [y])[|b|] == y;
    }
  }

  lemma {:induction false} BlocksRoundTripIff(d: MemdotDocument, draw: nat -> string, n: nat)
    requires DrawsIds(draw)
    ensures BlocksOf(MemdotToTipTap(d), draw, n).0 == AllFilled(d.blocks) <==> forall b :: b in d.blocks ==> Returns(b)
    decreases |d.blocks|
  {
    if d.blocks != [] {
      hide *;
      var before, last := d.blocks[..|d.blocks| - 1], d.blocks[|d.blocks| - 1];
      var front := d.(blocks := before);
      assert d.blocks == before + [last];
      BlocksRoundTripIff(front, draw, n);
      var m := BlocksOf(MemdotToTipTap(front), draw, n).1;
      DocumentSnoc(front, last);
      BlockReturnsIff(last, draw, m);
      SnocParts(MemdotToTipTap(front), TipTapOf(last));
      BlocksOfStep(MemdotToTipTap(d), draw, n);
      SnocsEqualIff(BlocksOf(MemdotToTipTap(front), draw, n).0, BlockOf(TipTapOf(last), draw, m).0,
                    AllFilled(before), Filled(last));
    }
  }

  lemma DocumentSnoc(front: MemdotDocument, last: MemdotBlock)
    ensures MemdotToTipTap(front.(blocks := front.blocks + [last])) == MemdotToTipTap(front) + [TipTapOf(last)]
    ensures AllFilled(front.blocks + [last]) == AllFilled(front.blocks) + [Filled(last)]
  {
    hide TipTapOf;
    hide Filled;
  }

  lemma BlockReturnsIff(b: MemdotBlock, draw: nat -> string, n: nat)
    requires DrawsIds(draw)
    ensures BlockOf(TipTapOf(b), draw, n).0 == Filled(b) <==> Returns(b)
  {
    BlockRoundTripIff(b, draw, n);
  }

  /** Showing a document in the editor and storing it again gives it back, absent content now empty, exactly
      when it has a block and every top-level block is settled and supported. */
  lemma RoundTripIff(d: MemdotDocument, draw: nat -> string, n: nat)
    requires DrawsIds(draw)
    ensures DocumentOf(d.documentId, Some(MemdotToTipTap(d)), draw, n) == d.(blocks := AllFilled(d.blocks))
       <==> d.blocks != [] && forall b :: b in d.blocks ==> Returns(b)
  {
    BlocksRoundTripIff(d, draw, n);
  }

  // ---- block ids in preorder ----

  /** A block's place for an id: filled by the id it brings along, or a gap. */
  datatype Slot = Gap | Own(id: string)

  function SlotOf(id: Option<string>): Slot {
    if id.Some? then Own(id.value) else Gap
  }

  /** The id every block of a tree brings along, parents before children. */
  function Slots(node: Json): seq<Slot>
    decreases node, 0
  {
    [SlotOf(OwnId(node))] + match ContentOf(node) case None => [] case Some(items) => SlotsAll(items)
  }

  function SlotsAll(items: seq<Json>): seq<Slot>
    decreases items, 0
  {
    if items == [] then [] else SlotsAll(items[..|items| - 1]) + InlineSlots(items[|items| - 1])
  }

  function InlineSlots(node: Json): seq<Slot>
    decreases node, 1
  {
    if IsLeaf(node) then [] else Slots(node)
  }

  function FilledSlot(slot: Slot, draw: nat -> string, n: nat): Slot {
    if slot == Gap then Own(draw(n)) else slot
  }

  /** The slots with each gap taking the next drawn id. */
  function FillGaps(slots: seq<Slot>, draw: nat -> string, n: nat): seq<Slot> {
    if slots == [] then []
    else [FilledSlot(slots[0], draw, n)] + FillGaps(slots[1..], draw, if slots[0] == Gap then n + 1 else n)
  }

  function Gaps(slots: seq<Slot>): nat {
    if slots == [] then 0 else (if slots[0] == Gap then 1 else 0) + Gaps(slots[1..])
  }

  lemma Associate<T>(x: seq<T>, y: seq<T>, z: seq<T>)
    ensures (x + y) + z == x + (y + z)
  {
  }

  lemma {:induction false} GapsAppend(a: seq<Slot>, b: seq<Slot>, draw: nat -> string, n: nat)
    ensures FillGaps(a + b, draw, n) == FillGaps(a, draw, n) + FillGaps(b, draw, n + Gaps(a))
    ensures Gaps(a + b) == Gaps(a) + Gaps(b)
  {
    if a == [] {
      assert a + b == b;
    } else {
      var slot, rest := a[0], a[1..];
      var m := if slot == Gap then n + 1 else n;
      Associate([FilledSlot(slot, draw, n)], FillGaps(rest, draw, m), FillGaps(b, draw, m + Gaps(rest)));
      GapsAppend(rest, b, draw, m);
      assert (a + b)[1..] == rest + b;
    }
  }

  lemma SlotsAllStep(items: seq<Json>)
    requires items != []
    ensures SlotsAll(items) == SlotsAll(items[..|items| - 1]) + InlineSlots(items[|items| - 1])
  {
    hide InlineSlots;
  }

  lemma SlotsAllSnoc(a: seq<Json>, x: Json)
    ensures SlotsAll(a + [x]) == SlotsAll(a) + InlineSlots(x)
  {
    hide InlineSlots;
    SnocParts(a, x);
  }

  lemma ItemSlotsStep(items: seq<Json>, draw: nat -> string, n: nat)
    requires items != []
    ensures var front := ItemsOf(items[..|items| - 1], draw, n);
            SlotsAll(ItemsOf(items, draw, n).0)
            == SlotsAll(front.0) + InlineSlots(InlineOf(items[|items| - 1], draw, front.1).0)
  {
    hide *;
    var front := ItemsOf(items[..|items| - 1], draw, n);
    ItemsOfStep(items, draw, n);
    SlotsAllSnoc(front.0, InlineOf(items[|items| - 1], draw, front.1).0);
  }

  lemma ItemsDrawnStep(items: seq<Json>, draw: nat -> string, n: nat)
    requires items != []
    ensures ItemsOf(items, draw, n).1
         == InlineOf(items[|items| - 1], draw, ItemsOf(items[..|items| - 1], draw, n).1).1
  {
    hide *;
    ItemsOfStep(items, draw, n);
  }

  lemma ItemGapsStep(items: seq<Json>, draw: nat -> string, n: nat, m: nat)
    requires items != [] && m == n + Gaps(SlotsAll(items[..|items| - 1]))
    ensures FillGaps(SlotsAll(items), draw, n)
         == FillGaps(SlotsAll(items[..|items| - 1]), draw, n) + FillGaps(InlineSlots(items[|items| - 1]), draw, m)
    ensures n + Gaps(SlotsAll(items)) == m + Gaps(InlineSlots(items[|items| - 1]))
  {
    hide *;
    SlotsAllStep(items);
    GapsAppend(SlotsAll(items[..|items| - 1]), InlineSlots(items[|items| - 1]), draw, n);
  }

  lemma OneGap(slot: Slot, draw: nat -> string, n: nat)
    ensures FillGaps([slot], draw, n) == [FilledSlot(slot, draw, n)]
    ensures Gaps([slot]) == if slot == Gap then 1 else 0
  {
    assert [slot][1..] == [];
  }

  lemma SlotsOfBlock(b: MemdotBlock)
    requires b.attrs.blockId != ""
    ensures Slots(BlockJson(b)) == [Own(b.attrs.blockId)] + if b.content.Some? then SlotsAll(b.content.value) else []
  {
    ReadsBack(b);
    hide BlockJson, SlotsAll, ContentOf, OwnId;
  }

  /** Normalising keeps every block id at its place in preorder; only blocks without one get a drawn id. */
  lemma {:induction false} IdsKeepPreorder(node: Json, draw: nat -> string, n: nat)
    requires DrawsIds(draw)
    ensures Slots(BlockJson(BlockOf(node, draw, n).0)) == FillGaps(Slots(node), draw, n)
    ensures BlockOf(node, draw, n).1 == n + Gaps(Slots(node))
    decreases node, 0
  {
    hide FillGaps, Gaps, ItemsOf, SlotsAll, MapType, LevelOf, OwnId, ContentOf, AttrString, BlockJson;
    var own := OwnId(node);
    var block := BlockOf(node, draw, n).0;
    assert draw(n) != "";
    OwnIdIsNotEmpty(node);
    SlotsOfBlock(block);
    OneGap(SlotOf(own), draw, n);
    var m := if own.Some? then n else n + 1;
    if ContentOf(node).None? {
      assert Slots(node) == [SlotOf(own)];
    } else {
      var items := ContentOf(node).value;
      ItemIdsKeepPreorder(items, draw, m);
      assert Slots(node) == [SlotOf(own)] + SlotsAll(items);
      assert block.content == Some(ItemsOf(items, draw, m).0) && BlockOf(node, draw, n).1 == ItemsOf(items, draw, m).1;
      GapsAppend([SlotOf(own)], SlotsAll(items), draw, n);
    }
  }

  lemma OwnIdIsNotEmpty(node: Json)
    ensures OwnId(node) != Some("")
  {
  }

  lemma {:induction false} ItemIdsKeepPreorder(items: seq<Json>, draw: nat -> string, n: nat)
    requires DrawsIds(draw)
    ensures SlotsAll(ItemsOf(items, draw, n).0) == FillGaps(SlotsAll(items), draw, n)
    ensures ItemsOf(items, draw, n).1 == n + Gaps(SlotsAll(items))
    decreases items, 0
  {
    if items != [] {
      hide *;
      var before, last := items[..|items| - 1], items[|items| - 1];
      ItemIdsKeepPreorder(before, draw, n);
      var m := ItemsOf(before, draw, n).1;
      InlineIdsKeepPreorder(last, draw, m);
      ItemSlotsStep(items, draw, n);
      ItemsDrawnStep(items, draw, n);
      ItemGapsStep(items, draw, n, m);
    }
  }

  lemma {:induction false} InlineIdsKeepPreorder(node: Json, draw: nat -> string, n: nat)
    requires DrawsIds(draw)
    ensures InlineSlots(InlineOf(node, draw, n).0) == FillGaps(InlineSlots(node), draw, n)
    ensures InlineOf(node, draw, n).1 == n + Gaps(InlineSlots(node))
    decreases node, 1
  {
    if !IsLeaf(node) {
      IdsKeepPreorder(node, draw, n);
      NormalizingSettles(node, draw, n);
      SettledBlockIsInline(BlockOf(node, draw, n).0);
    }
  }

  // ---- plain text ----

  /** How `join` writes a text that is not a string. */
  type Shown = Json -> string

  /** The text of a text leaf; a falsy one is not pushed. */
  function OwnText(node: Json, show: Shown): string {
    var text := Get(node, "text");
    if Get(node, "type") != Some(Str("text")) || text.None? || Falsy(text.value) then ""
    else if text.value.Str? then text.value.s
    else show(text.value)
  }

  /** The joined text of a node: its own, then its children's. */
  function Walk(node: Json, show: Shown): string
    decreases node, 0
  {
    OwnText(node, show) + match ContentOf(node) case None => "" case Some(items) => WalkAll(items, show)
  }

  /** `plainTextFromMemdot`: pushing parts in order and joining them with nothing between. */
  function WalkAll(items: seq<Json>, show: Shown): string
    decreases items, 0
  {
    if items == [] then "" else WalkAll(items[..|items| - 1], show) + Walk(items[|items| - 1], show)
  }

  lemma WalkAllStep(items: seq<Json>, show: Shown)
    requires items != []
    ensures WalkAll(items, show) == WalkAll(items[..|items| - 1], show) + Walk(items[|items| - 1], show)
  {
    hide Walk;
  }

  lemma WalkAllSnoc(a: seq<Json>, x: Json, show: Shown)
    ensures WalkAll(a + [x], show) == WalkAll(a, show) + Walk(x, show)
  {
    hide Walk;
    SnocParts(a, x);
  }

  /** Texts are joined in the order of the nodes. */
  lemma {:induction false} WalkAllAppends(a: seq<Json>, b: seq<Json>, show: Shown)
    ensures WalkAll(a + b, show) == WalkAll(a, show) + WalkAll(b, show)
  {
    hide *;
    if b == [] {
      NothingWalked(a, show);
    } else {
      var n := |b| - 1;
      WalkAllAppends(a, b[..n], show);
      FrontAndLast(b);
      Associate(a, b[..n], [b[n]]);
      WalkAllSnoc(a + b[..n], b[n], show);
      WalkAllSnoc(b[..n], b[n], show);
      Associate(WalkAll(a, show), WalkAll(b[..n], show), Walk(b[n], show));
    }
  }

  lemma NothingWalked(a: seq<Json>, show: Shown)
    ensures WalkAll(a + [], show) == WalkAll(a, show) + WalkAll([], show)
  {
    assert a + [] == a;
    assert WalkAll([], show) == "";
  }

  /** Below the top level normalising loses no text; a top-level text node loses its own. */
  lemma {:induction false} TextBelowIsKept(node: Json, draw: nat -> string, n: nat, show: Shown)
    ensures OwnText(node, show) + Walk(BlockJson(BlockOf(node, draw, n).0), show) == Walk(node, show)
    decreases node, 0
  {
    hide BlockJson, MapType, LevelOf, OwnId, ContentOf, ItemsOf, WalkAll;
    var block := BlockOf(node, draw, n).0;
    ReadsBack(block);
    MappedTypeIsKnown(RawType(node));
    assert OwnText(BlockJson(block), show) == "";
    hide OwnText;
    if ContentOf(node).Some? {
      ItemTextIsKept(ContentOf(node).value, draw, if OwnId(node).Some? then n else n + 1, show);
    }
  }

  lemma {:induction false} ItemTextIsKept(items: seq<Json>, draw: nat -> string, n: nat, show: Shown)
    ensures WalkAll(ItemsOf(items, draw, n).0, show) == WalkAll(items, show)
    decreases items, 0
  {
    if items != [] {
      var before, last := items[..|items| - 1], items[|items| - 1];
      var front := ItemsOf(before, draw, n);
      ItemTextIsKept(before, draw, n, show);
      var inline := InlineOf(last, draw, front.1).0;
      if !IsLeaf(last) {
        TextBelowIsKept(last, draw, front.1, show);
        assert OwnText(last, show) == "";
      }
      assert Walk(inline, show) == Walk(last, show);
      hide *;
      ItemsOfStep(items, draw, n);
      WalkAllStep(items, show);
      WalkAllSnoc(front.0, inline, show);
    }
  }

  function BlockJsons(bs: seq<MemdotBlock>): (r: seq<Json>)
    ensures |r| == |bs|
  {
    seq(|bs|, i requires 0 <= i < |bs| => BlockJson(bs[i]))
  }

  lemma BlockJsonsSnoc(bs: seq<MemdotBlock>, b: MemdotBlock)
    ensures BlockJsons(bs + [b]) == BlockJsons(bs) + [BlockJson(b)]
  {
    hide BlockJson;
  }

  lemma StoredTextStep(nodes: seq<Json>, draw: nat -> string, n: nat, show: Shown)
    requires nodes != []
    ensures var front := BlocksOf(nodes[..|nodes| - 1], draw, n);
            WalkAll(BlockJsons(BlocksOf(nodes, draw, n).0), show)
            == WalkAll(BlockJsons(front.0), show) + Walk(BlockJson(BlockOf(nodes[|nodes| - 1], draw, front.1).0), show)
  {
    hide *;
    var front := BlocksOf(nodes[..|nodes| - 1], draw, n);
    var block := BlockOf(nodes[|nodes| - 1], draw, front.1).0;
    BlocksOfStep(nodes, draw, n);
    BlockJsonsSnoc(front.0, block);
    WalkAllSnoc(BlockJsons(front.0), BlockJson(block), show);
  }

  predicate NoTextLeaf(nodes: seq<Json>, show: Shown) {
    forall node :: node in nodes ==> OwnText(node, show) == ""
  }

  /** A stored tree has the editor tree's plain text, joined, exactly when no top-level node is a text leaf with
      text. */
  lemma {:induction false} PlainTextIsKeptIff(nodes: seq<Json>, draw: nat -> string, n: nat, show: Shown)
    ensures WalkAll(BlockJsons(BlocksOf(nodes, draw, n).0), show) == WalkAll(nodes, show)
       <==> NoTextLeaf(nodes, show)
    ensures |WalkAll(BlockJsons(BlocksOf(nodes, draw, n).0), show)| <= |WalkAll(nodes, show)|
  {
    if nodes != [] {
      hide *;
      var before, last := nodes[..|nodes| - 1], nodes[|nodes| - 1];
      PlainTextIsKeptIff(before, draw, n, show);
      var front := BlocksOf(before, draw, n);
      var kept := Walk(BlockJson(BlockOf(last, draw, front.1).0), show);
      TextBelowIsKept(last, draw, front.1, show);
      StoredTextStep(nodes, draw, n, show);
      WalkAllStep(nodes, show);
      AppendedEqualIff(WalkAll(BlockJsons(front.0), show), WalkAll(before, show), kept, OwnText(last, show));
      NoTextLeafStep(nodes, show);
    }
  }

  lemma NoTextLeafStep(nodes: seq<Json>, show: Shown)
    requires nodes != []
    ensures NoTextLeaf(nodes, show)
            <==> NoTextLeaf(nodes[..|nodes| - 1], show) && OwnText(nodes[|nodes| - 1], show) == ""
  {
    hide OwnText;
    assert nodes == nodes[..|nodes| - 1] + [nodes[|nodes| - 1]];
  }

  /** A shorter list and a suffix of another only make up the same whole when nothing is missing. */
  lemma AppendedEqualIff<T>(a: seq<T>, b: seq<T>, x: seq<T>, lost: seq<T>)
    requires |a| <= |b|
    ensures a + x == b + (lost + x) <==> a == b && lost == []
  {
    if a + x == b + (lost + x) {
      assert |a| == |b| && lost == [];
      assert (a + x)[..|a|] == a && (b + (lost + x))[..|b|] == b;
    }
  }
}
