/** The tree walk that rejects a document with a repeated string id or a link that is not HTTPS. */
module BlockIds {
  import opened Wrappers
  import Markdown

  /**
   * A block id as JSON delivers it: a string, another scalar with the text `str` gives it, or an array or
   * object, which cannot be looked up in a set.
   */
  datatype BlockId = StringId(text: string) | ScalarId(text: string) | Compound

  /** A JSON child as the walk sees it; a block id that is missing or falsy is None. */
  datatype Node =
    | Opaque
    | Text(hrefs: seq<string>)
    | Block(blockId: Option<BlockId>, content: seq<Node>)

  datatype Error = DuplicateBlockId | UrlMustBeHttps | UnhashableId

  /** What the walk looks at, in the order it looks. */
  datatype Sight = Id(id: BlockId) | Link(href: string)

  function Links(hrefs: seq<string>): (r: seq<Sight>)
    ensures |r| == |hrefs|
  {
    seq(|hrefs|, i requires 0 <= i < |hrefs| => Link(hrefs[i]))
  }

  /** Preorder: a block's own id, then its children. */
  function Sights(n: Node): seq<Sight> {
    match n
    case Opaque => []
    case Text(hrefs) => Links(hrefs)
    case Block(id, content) => (if id.Some? then [Id(id.value)] else []) + SightsAll(content)
  }

  function SightsAll(ns: seq<Node>): seq<Sight> {
    if ns == [] then [] else SightsAll(ns[..|ns| - 1]) + Sights(ns[|ns| - 1])
  }

  /** `block_id in seen`: the set holds strings, so only a string can be found in it. */
  predicate Found(id: BlockId, seen: set<string>) {
    id.StringId? && id.text in seen
  }

  /** The texts seen after these sights, or the error the first bad one raises. */
  function Watch(sights: seq<Sight>, seen: set<string>, https: string -> bool): Result<set<string>, Error> {
    if sights == [] then Success(seen)
    else
      match sights[0]
      case Id(id) =>
        if id.Compound? then Failure(UnhashableId)
        else if Found(id, seen) then Failure(DuplicateBlockId)
        else Watch(sights[1..], seen + {id.text}, https)
      case Link(href) => if !https(href) then Failure(UrlMustBeHttps) else Watch(sights[1..], seen, https)
  }

  /** The set after one sight that raises nothing. */
  function Noted(s: Sight, seen: set<string>): set<string> {
    if s.Id? && !s.id.Compound? then seen + {s.id.text} else seen
  }

  lemma {:induction false} WatchInTwo(a: seq<Sight>, b: seq<Sight>, seen: set<string>, https: string -> bool)
    ensures Watch(a + b, seen, https)
         == match Watch(a, seen, https) { case Success(s) => Watch(b, s, https) case Failure(e) => Failure(e) }
  {
    if a == [] {
      assert a + b == b;
    } else {
      assert (a + b)[1..] == a[1..] + b;
      WatchInTwo(a[1..], b, Noted(a[0], seen), https);
    }
  }

  /** An id whose text is this string. */
  predicate HasText(s: Sight, text: string) {
    s.Id? && !s.id.Compound? && s.id.text == text
  }

  /** A sight that raises nothing by itself: no array or object for an id, no link but HTTPS. */
  predicate Harmless(s: Sight, https: string -> bool) {
    match s
    case Id(id) => !id.Compound?
    case Link(href) => https(href)
  }

  /** No string id has the text of an id, of whatever kind, that comes before it. */
  predicate NoStringIdTwice(sights: seq<Sight>) {
    forall i, j :: 0 <= i < j < |sights| && sights[j].Id? && sights[j].id.StringId?
        ==> !HasText(sights[i], sights[j].id.text)
  }

  /** No string id is among these texts. */
  predicate NoneFound(sights: seq<Sight>, seen: set<string>) {
    forall s :: s in sights && s.Id? ==> !Found(s.id, seen)
  }

  lemma NoStringIdTwiceTail(sights: seq<Sight>)
    requires sights != [] && (sights[0].Id? ==> !sights[0].id.Compound?)
    ensures NoStringIdTwice(sights)
       <==> NoStringIdTwice(sights[1..]) && (sights[0].Id? ==> NoneFound(sights[1..], {sights[0].id.text}))
  {
    var rest := sights[1..];
    assert forall j :: 0 < j < |sights| ==> sights[j] == rest[j - 1];
    assert forall j :: 0 <= j < |rest| ==> rest[j] == sights[j + 1];
    if NoStringIdTwice(sights) && sights[0].Id? {
      forall s | s in rest && s.Id? ensures !Found(s.id, {sights[0].id.text}) {
        var j :| 0 <= j < |rest| && rest[j] == s;
        assert s.id.StringId? ==> !HasText(sights[0], sights[j + 1].id.text);
      }
    }
    if NoStringIdTwice(rest) && (sights[0].Id? ==> NoneFound(rest, {sights[0].id.text})) {
      forall i, j | 0 <= i < j < |sights| && sights[j].Id? && sights[j].id.StringId?
        ensures !HasText(sights[i], sights[j].id.text)
      {
        assert rest[j - 1] in rest;
        if i > 0 { assert !HasText(rest[i - 1], rest[j - 1].id.text); }
      }
    }
  }

  lemma FoundInUnion(sights: seq<Sight>, seen: set<string>, text: string)
    ensures NoneFound(sights, seen + {text}) <==> NoneFound(sights, seen) && NoneFound(sights, {text})
  {
  }

  /**
   * The walk passes exactly when every id is a scalar, every link is HTTPS, and no string id has a text
   * that was seen before it.
   */
  lemma {:induction false} WatchPassesIff(sights: seq<Sight>, seen: set<string>, https: string -> bool)
    ensures Watch(sights, seen, https).Success? <==>
      && (forall s :: s in sights ==> Harmless(s, https))
      && NoStringIdTwice(sights)
      && NoneFound(sights, seen)
  {
    if sights != [] {
      var first, rest := sights[0], sights[1..];
      WatchPassesIff(rest, Noted(first, seen), https);
      assert sights == [first] + rest;
      if Harmless(first, https) {
        NoStringIdTwiceTail(sights);
        if first.Id? { FoundInUnion(rest, seen, first.id.text); }
      }
      assert NoneFound(sights, seen) <==> NoneFound(rest, seen) && (first.Id? ==> !Found(first.id, seen));
      hide NoStringIdTwice;
      hide NoneFound;
    }
  }

  /** What one sight raises by itself or because of the ids seen before it. */
  ghost predicate Raises(s: Sight, seen: set<string>, https: string -> bool, e: Error) {
    match s
    case Id(id) => (e == UnhashableId && id.Compound?) || (e == DuplicateBlockId && id.StringId? && id.text in seen)
    case Link(href) => e == UrlMustBeHttps && !https(href)
  }

  /** A walk that fails does so at the first sight that raises, with that sight's error. */
  lemma {:induction false} WatchFailsAtFirst(sights: seq<Sight>, seen: set<string>, https: string -> bool, e: Error)
    ensures Watch(sights, seen, https) == Failure(e) <==>
              exists i :: 0 <= i < |sights| && Watch(sights[..i], seen, https).Success?
                       && Raises(sights[i], Watch(sights[..i], seen, https).value, https, e)
  {
    hide Raises;
    if sights != [] {
      var first, rest := sights[0], sights[1..];
      FirstRaises(first, seen, https, e);
      assert sights[..0] == [] && Watch(sights[..0], seen, https) == Success(seen);
      if Watch([first], seen, https).Success? {
        WatchFailsAtFirst(rest, Noted(first, seen), https, e);
        WatchTail(sights, seen, https);
        forall i | 0 <= i < |rest|
          ensures Watch(sights[..i + 1], seen, https) == Watch(rest[..i], Noted(first, seen), https)
        {
          WatchTail(sights[..i + 1], seen, https);
          assert sights[..i + 1][1..] == rest[..i];
        }
        if i :| 0 <= i < |rest| && Watch(rest[..i], Noted(first, seen), https).Success?
                && Raises(rest[i], Watch(rest[..i], Noted(first, seen), https).value, https, e)
        {
          assert sights[i + 1] == rest[i];
        }
        if i :| 0 < i < |sights| && Watch(sights[..i], seen, https).Success?
                && Raises(sights[i], Watch(sights[..i], seen, https).value, https, e)
        {
          assert sights[i] == rest[i - 1];
          assert Watch(sights[..i - 1 + 1], seen, https) == Watch(rest[..i - 1], Noted(first, seen), https);
        }
      } else {
        forall i | 0 < i < |sights| ensures Watch(sights[..i], seen, https).Failure? {
          assert sights[..i] == [first] + sights[..i][1..];
          WatchInTwo([first], sights[..i][1..], seen, https);
        }
        assert sights == [first] + rest;
        WatchInTwo([first], rest, seen, https);
      }
      hide Watch;
    }
  }

  lemma FirstRaises(s: Sight, seen: set<string>, https: string -> bool, e: Error)
    ensures Watch([s], seen, https) == Failure(e) <==> Raises(s, seen, https, e)
    ensures Watch([s], seen, https).Success? ==> Watch([s], seen, https).value == Noted(s, seen)
  {
    assert [s][1..] == [];
  }

  lemma WatchTail(sights: seq<Sight>, seen: set<string>, https: string -> bool)
    requires sights != [] && Watch([sights[0]], seen, https).Success?
    ensures Watch(sights, seen, https) == Watch(sights[1..], Noted(sights[0], seen), https)
  {
    FirstRaises(sights[0], seen, https, UnhashableId);
    assert sights == [sights[0]] + sights[1..];
    WatchInTwo([sights[0]], sights[1..], seen, https);
    hide Watch;
  }

  /** A block is looked at before its children: a child's string id clashes with its parent's, not the other way. */
  lemma ParentComesFirst(text: string, https: string -> bool)
    ensures Watch(Sights(Block(Some(ScalarId(text)), [Block(Some(StringId(text)), [])])), {}, https)
         == Failure(DuplicateBlockId)
    ensures Watch(Sights(Block(Some(StringId(text)), [Block(Some(ScalarId(text)), [])])), {}, https).Success?
  {
    NestedSights(ScalarId(text), StringId(text));
    NestedSights(StringId(text), ScalarId(text));
    WatchInTwo([Id(ScalarId(text))], [Id(StringId(text))], {}, https);
    WatchInTwo([Id(StringId(text))], [Id(ScalarId(text))], {}, https);
    FirstRaises(Id(ScalarId(text)), {}, https, DuplicateBlockId);
    FirstRaises(Id(StringId(text)), {}, https, DuplicateBlockId);
    FirstRaises(Id(StringId(text)), {text}, https, DuplicateBlockId);
    FirstRaises(Id(ScalarId(text)), {text}, https, DuplicateBlockId);
    FirstRaises(Id(ScalarId(text)), {text}, https, UnhashableId);
    FirstRaises(Id(ScalarId(text)), {text}, https, UrlMustBeHttps);
    assert {} + {text} == {text};
    hide Watch;
    hide Sights;
  }

  lemma NestedSights(outer: BlockId, inner: BlockId)
    ensures Sights(Block(Some(outer), [Block(Some(inner), [])])) == [Id(outer)] + [Id(inner)]
  {
    var child := Block(Some(inner), []);
    assert [child][..0] == [] && SightsAll([child]) == Sights(child) == [Id(inner)];
  }

  /** Two blocks with the same id pass when it is not a string, whatever its text. */
  lemma EqualScalarIdsPass(text: string, https: string -> bool)
    ensures Watch(Sights(Block(Some(ScalarId(text)), [Block(Some(ScalarId(text)), [])])), {}, https).Success?
  {
    var inner := Block(Some(ScalarId(text)), []);
    assert [inner][..0] == [] && SightsAll([inner]) == Sights(inner) == [Id(ScalarId(text))];
    var sights := [Id(ScalarId(text))] + [Id(ScalarId(text))];
    assert Sights(Block(Some(ScalarId(text)), [inner])) == sights;
    WatchPassesIff(sights, {}, https);
  }

  /** A walk that passes has added exactly the texts of the ids it saw. */
  lemma {:induction false} WatchCollectsIds(sights: seq<Sight>, seen: set<string>, https: string -> bool)
    requires Watch(sights, seen, https).Success?
    ensures forall t :: t in Watch(sights, seen, https).value <==> t in seen || exists s :: s in sights && HasText(s, t)
  {
    if sights != [] {
      var first, rest := sights[0], sights[1..];
      WatchCollectsIds(rest, Noted(first, seen), https);
      assert sights == [first] + rest;
      forall t
        ensures (exists s :: s in sights && HasText(s, t))
           <==> HasText(first, t) || exists s :: s in rest && HasText(s, t)
      {
        assert first in sights;
      }
    }
  }

  /** The set of ids that one validation shares between all blocks. */
  class BlockIdWalk {
    var seen: set<string>
    const https: string -> bool

    constructor (https: string -> bool)
      ensures seen == {} && this.https == https
    {
      seen := {};
      this.https := https;
    }

    /** `_collect_block_ids`; on an error the walk stops and the document is refused. */
    method Collect(node: Node) returns (r: Result<(), Error>)
      requires node.Block?
      modifies this
      ensures match Watch(Sights(node), old(seen), https)
              case Success(s) => r == Success(()) && seen == s
              case Failure(e) => r == Failure(e)
      decreases node
    {
      ghost var before := seen;
      ghost var here: seq<Sight> := [];
      if node.blockId.Some? {
        if node.blockId.value.Compound? {
          WatchInTwo([Id(node.blockId.value)], SightsAll(node.content), before, https);
          return Failure(UnhashableId);
        }
        if Found(node.blockId.value, seen) {
          WatchInTwo([Id(node.blockId.value)], SightsAll(node.content), before, https);
          return Failure(DuplicateBlockId);
        }
        seen := seen + {node.blockId.value.text};
        here := [Id(node.blockId.value)];
      }
      WatchInTwo(here, SightsAll(node.content), before, https);
      ghost var middle := seen;
      for i := 0 to |node.content|
        invariant Watch(SightsAll(node.content[..i]), middle, https) == Success(seen)
      {
        var child := node.content[i];
        ghost var at := seen;
        assert node.content[..i + 1][..i] == node.content[..i];
        WatchInTwo(SightsAll(node.content[..i]), Sights(child), middle, https);
        SightsOfPrefix(node.content, i + 1, middle, https);
        if child.Text? {
          r := CheckLinks(child.hrefs, at);
          if r.Failure? { return; }
        } else if child.Block? {
          r := Collect(child);
          if r.Failure? { return; }
        }
      }
      assert node.content[..|node.content|] == node.content;
      r := Success(());
    }

    /** The links of one text leaf. */
    method CheckLinks(hrefs: seq<string>, ghost at: set<string>) returns (r: Result<(), Error>)
      ensures match Watch(Links(hrefs), at, https)
              case Success(s) => r == Success(()) && s == at
              case Failure(e) => r == Failure(e)
    {
      for i := 0 to |hrefs|
        invariant Watch(Links(hrefs[..i]), at, https) == Success(at)
      {
        assert Links(hrefs[..i + 1]) == Links(hrefs[..i]) + [Link(hrefs[i])];
        WatchInTwo(Links(hrefs[..i]), [Link(hrefs[i])], at, https);
        if !https(hrefs[i]) {
          assert Links(hrefs) == Links(hrefs[..i + 1]) + Links(hrefs[i + 1..]);
          WatchInTwo(Links(hrefs[..i + 1]), Links(hrefs[i + 1..]), at, https);
          return Failure(UrlMustBeHttps);
        }
      }
      assert hrefs[..|hrefs|] == hrefs;
      r := Success(());
    }

    /** The walk over all top-level blocks. */
    method CollectAll(blocks: seq<Node>) returns (r: Result<(), Error>)
      requires forall b :: b in blocks ==> b.Block?
      requires seen == {}
      modifies this
      ensures r.Success? <==> Watch(SightsAll(blocks), {}, https).Success?
      ensures r.Failure? ==> r == Failure(Watch(SightsAll(blocks), {}, https).error)
    {
      for i := 0 to |blocks|
        invariant Watch(SightsAll(blocks[..i]), {}, https) == Success(seen)
      {
        assert blocks[..i + 1][..i] == blocks[..i];
        WatchInTwo(SightsAll(blocks[..i]), Sights(blocks[i]), {}, https);
        SightsOfPrefix(blocks, i + 1, {}, https);
        r := Collect(blocks[i]);
        if r.Failure? { return; }
      }
      assert blocks[..|blocks|] == blocks;
      r := Success(());
    }
  }

  /** An error found in a prefix of the children is the error of them all. */
  lemma {:induction false} SightsOfPrefix(ns: seq<Node>, n: nat, seen: set<string>, https: string -> bool)
    requires n <= |ns|
    ensures Watch(SightsAll(ns[..n]), seen, https).Failure?
        ==> Watch(SightsAll(ns), seen, https) == Watch(SightsAll(ns[..n]), seen, https)
    decreases |ns|
  {
    if n == |ns| {
      assert ns[..n] == ns;
    } else {
      var front := ns[..|ns| - 1];
      assert front[..n] == ns[..n];
      SightsOfPrefix(front, n, seen, https);
      WatchInTwo(SightsAll(front), Sights(ns[|ns| - 1]), seen, https);
    }
  }

  // ---- imported documents ----

  /** An imported block as the walk sees it; `show` writes an id as a string. */
  function Shown(b: Markdown.Node, show: Markdown.Uuid -> string): Node {
    match b
    case TextNode(_) => Text([])
    case Block(_, id, _, content) =>
      Block(Some(StringId(show(id))), seq(|content|, i requires 0 <= i < |content| => Text([])))
  }

  function ShownAll(bs: seq<Markdown.Node>, show: Markdown.Uuid -> string): (r: seq<Node>)
    ensures |r| == |bs|
  {
    seq(|bs|, i requires 0 <= i < |bs| => Shown(bs[i], show))
  }

  function DrawnIds(n: nat, draw: nat -> Markdown.Uuid, show: Markdown.Uuid -> string): (r: seq<Sight>)
    ensures |r| == n
  {
    seq(n, i requires 0 <= i < n => Id(StringId(show(draw(i)))))
  }

  lemma SightsAllSnoc(ns: seq<Node>, n: Node)
    ensures SightsAll(ns + [n]) == SightsAll(ns) + Sights(n)
  {
    hide Sights;
    assert (ns + [n])[..|ns + [n]| - 1] == ns;
  }

  lemma ImportedBlockSights(l: Markdown.Line, id: Markdown.Uuid, show: Markdown.Uuid -> string)
    ensures Sights(Shown(Markdown.BlockOf(l, id), show)) == [Id(StringId(show(id)))]
  {
    var leaf := [Text([])];
    assert leaf[..0] == [] && SightsAll(leaf) == [];
    assert Shown(Markdown.BlockOf(l, id), show) == Block(Some(StringId(show(id))), leaf);
  }

  lemma ImportedSnoc(front: seq<Markdown.Line>, last: Markdown.Line, draw: nat -> Markdown.Uuid,
                     show: Markdown.Uuid -> string)
    ensures ShownAll(Markdown.Blocks(front + [last], draw), show)
         == ShownAll(Markdown.Blocks(front, draw), show) + [Shown(Markdown.BlockOf(last, draw(|front|)), show)]
    ensures DrawnIds(|front| + 1, draw, show) == DrawnIds(|front|, draw, show) + [Id(StringId(show(draw(|front|))))]
  {
    hide Shown;
    hide Markdown.BlockOf;
  }

  lemma {:induction false} ImportedSights(ls: seq<Markdown.Line>, draw: nat -> Markdown.Uuid,
                                          show: Markdown.Uuid -> string)
    ensures SightsAll(ShownAll(Markdown.Blocks(ls, draw), show)) == DrawnIds(|ls|, draw, show)
  {
    if ls != [] {
      hide *;
      var front, last := ls[..|ls| - 1], ls[|ls| - 1];
      var id := draw(|front|);
      ImportedSights(front, draw, show);
      assert ls == front + [last];
      ImportedSnoc(front, last, draw, show);
      SightsAllSnoc(ShownAll(Markdown.Blocks(front, draw), show), Shown(Markdown.BlockOf(last, id), show));
      ImportedBlockSights(last, id, show);
    }
  }

  ghost predicate Injective(show: Markdown.Uuid -> string) {
    forall a, b :: show(a) == show(b) ==> a == b
  }

  predicate DistinctDraws(n: nat, draw: nat -> Markdown.Uuid) {
    forall i, j :: 0 <= i < j < n ==> draw(i) != draw(j)
  }

  lemma DrawnIdsRepeatIff(n: nat, draw: nat -> Markdown.Uuid, show: Markdown.Uuid -> string)
    requires Injective(show)
    ensures NoStringIdTwice(DrawnIds(n, draw, show)) <==> DistinctDraws(n, draw)
  {
    hide Injective;
    var ids := DrawnIds(n, draw, show);
    forall i, j | 0 <= i < j < n ensures HasText(ids[i], ids[j].id.text) <==> draw(i) == draw(j) {
      assert show(draw(i)) == show(draw(j)) ==> draw(i) == draw(j) by { SameShown(show, draw(i), draw(j)); }
    }
  }

  lemma SameShown(show: Markdown.Uuid -> string, a: Markdown.Uuid, b: Markdown.Uuid)
    requires Injective(show)
    ensures show(a) == show(b) ==> a == b
  {
  }

  /** What Markdown import builds passes the walk exactly when its drawn ids differ. */
  lemma ImportedDocumentPassesIff(markdown: string, draw: nat -> Markdown.Uuid, show: Markdown.Uuid -> string,
                                  https: string -> bool)
    requires Injective(show)
    ensures var ls := Markdown.Imported(markdown);
            Watch(SightsAll(ShownAll(Markdown.Blocks(ls, draw), show)), {}, https).Success?
            <==> DistinctDraws(|ls|, draw)
  {
    hide Injective;
    hide NoStringIdTwice;
    hide DistinctDraws;
    var ls := Markdown.Imported(markdown);
    ImportedSights(ls, draw, show);
    DrawnIdsRepeatIff(|ls|, draw, show);
    WatchPassesIff(DrawnIds(|ls|, draw, show), {}, https);
  }
}
