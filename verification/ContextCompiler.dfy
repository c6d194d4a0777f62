/** The context compiler: greedy packing of fused candidates under an item and a character budget. */
module ContextCompiler {
  import opened Wrappers
  import opened Ordering
  import opened Retrieval

  datatype OmitReason = BudgetExceeded | Duplicate

  datatype Budget = Budget(maxTokens: int, maxItems: int)

  function CharBudget(b: Budget): int {
    b.maxTokens * 4
  }

  datatype Item = Item(
    rank: nat, canonicalType: string, canonicalId: Uuid, revisionId: Uuid, locator: Option<string>,
    text: string, selected: bool, omitReason: Option<OmitReason>)

  type Corpus = map<string, string>

  function TextOf(c: Fused, corpus: Corpus): string {
    if c.id in corpus then corpus[c.id]
    else if c.snippet.Some? then c.snippet.value
    else ""
  }

  // ---- the decisions, read off the finished item list ----

  /** Ids of the selected candidates, in order. */
  function SelectedIds(cs: seq<Fused>, items: seq<Item>): seq<string>
    requires |items| == |cs|
  {
    if cs == [] then []
    else
      var n := |cs| - 1;
      SelectedIds(cs[..n], items[..n]) + if items[n].selected then [cs[n].id] else []
  }

  /** Characters of selected text. */
  function SelectedChars(items: seq<Item>): nat {
    if items == [] then 0
    else
      var n := |items| - 1;
      SelectedChars(items[..n]) + if items[n].selected then |items[n].text| else 0
  }

  /** What the compiler decides for one candidate, given the candidates and items before it. */
  function Decide(c: Fused, cs: seq<Fused>, items: seq<Item>, corpus: Corpus, b: Budget): Item
    requires |items| == |cs|
  {
    var text := TextOf(c, corpus);
    var chosen := SelectedIds(cs, items);
    var omit :=
      if c.id in chosen then Some(Duplicate)
      else if |chosen| >= b.maxItems || SelectedChars(items) + |text| > CharBudget(b) then Some(BudgetExceeded)
      else None;
    Item(|cs| + 1, c.canonicalType, c.canonicalId, c.revisionId, c.locator,
         if omit == None then text else "", omit == None, omit)
  }

  function Pack(cs: seq<Fused>, corpus: Corpus, b: Budget): (items: seq<Item>)
    ensures |items| == |cs|
  {
    if cs == [] then []
    else
      var n := |cs| - 1;
      var before := Pack(cs[..n], corpus, b);
      before + [Decide(cs[n], cs[..n], before, corpus, b)]
  }

  /** The ids and characters selected so far. */
  function Chosen(cs: seq<Fused>, corpus: Corpus, b: Budget): seq<string> {
    SelectedIds(cs, Pack(cs, corpus, b))
  }

  function Used(cs: seq<Fused>, corpus: Corpus, b: Budget): nat {
    SelectedChars(Pack(cs, corpus, b))
  }

  predicate Chooses(c: Fused, chosen: seq<string>, used: nat, corpus: Corpus, b: Budget) {
    c.id !in chosen && |chosen| < b.maxItems && used + |TextOf(c, corpus)| <= CharBudget(b)
  }

  lemma PackNothing(corpus: Corpus, b: Budget)
    ensures Pack([], corpus, b) == [] && Chosen([], corpus, b) == [] && Used([], corpus, b) == 0
  {
  }

  /** One more candidate: its decision, and what it adds to the selection. */
  lemma PackLast(cs: seq<Fused>, corpus: Corpus, b: Budget)
    requires cs != []
    ensures var n := |cs| - 1;
            var init, c := cs[..n], cs[n];
            var chosen, used := Chosen(init, corpus, b), Used(init, corpus, b);
            && Pack(cs, corpus, b) == Pack(init, corpus, b) + [Decide(c, init, Pack(init, corpus, b), corpus, b)]
            && (if Chooses(c, chosen, used, corpus, b)
                then Chosen(cs, corpus, b) == chosen + [c.id] && Used(cs, corpus, b) == used + |TextOf(c, corpus)|
                else Chosen(cs, corpus, b) == chosen && Used(cs, corpus, b) == used)
  {
    var n := |cs| - 1;
    assert Pack(cs, corpus, b)[..n] == Pack(cs[..n], corpus, b);
  }

  lemma PackNext(cs: seq<Fused>, i: nat, corpus: Corpus, b: Budget)
    requires i < |cs|
    ensures var init, c := cs[..i], cs[i];
            var chosen, used := Chosen(init, corpus, b), Used(init, corpus, b);
            && Pack(cs[..i + 1], corpus, b)
                 == Pack(init, corpus, b) + [Decide(c, init, Pack(init, corpus, b), corpus, b)]
            && (if Chooses(c, chosen, used, corpus, b)
                then Chosen(cs[..i + 1], corpus, b) == chosen + [c.id]
                    && Used(cs[..i + 1], corpus, b) == used + |TextOf(c, corpus)|
                else Chosen(cs[..i + 1], corpus, b) == chosen && Used(cs[..i + 1], corpus, b) == used)
  {
    PackLast(cs[..i + 1], corpus, b);
    assert cs[..i + 1][..i] == cs[..i];
  }

  function IsSelected(): Item -> bool {
    (i: Item) => i.selected
  }

  /** `compile_context`: the selection loop, with its running total and its set of seen keys. */
  method CompileContext(candidates: seq<Fused>, corpus: Corpus, budget: Budget)
    returns (items: seq<Item>, partial: bool)
    ensures items == Pack(candidates, corpus, budget)
    ensures partial <==> exists i :: i in items && !i.selected
  {
    items := [];
    var usedChars := 0;
    var seen: set<string> := {};
    var charLimit := CharBudget(budget);
    PackNothing(corpus, budget);
    hide Pack;
    hide Chosen;
    hide Used;
    for n := 0 to |candidates|
      invariant items == Pack(candidates[..n], corpus, budget)
      invariant usedChars == Used(candidates[..n], corpus, budget)
      invariant seen == set id | id in Chosen(candidates[..n], corpus, budget)
      invariant |Filter(items, IsSelected())| == |Chosen(candidates[..n], corpus, budget)|
    {
      var candidate := candidates[n];
      var text := TextOf(candidate, corpus);
      var omit: Option<OmitReason> := None;
      var selected := true;
      PackNext(candidates, n, corpus, budget);
      if candidate.id in seen {
        selected := false;
        omit := Some(Duplicate);
      } else if |Filter(items, IsSelected())| >= budget.maxItems {
        selected := false;
        omit := Some(BudgetExceeded);
      } else if usedChars + |text| > charLimit {
        selected := false;
        omit := Some(BudgetExceeded);
      } else {
        seen := seen + {candidate.id};
        usedChars := usedChars + |text|;
      }
      var item := Item(n + 1, candidate.canonicalType, candidate.canonicalId, candidate.revisionId, candidate.locator,
                       if selected then text else "", selected, omit);
      DecideIs(candidates[..n], candidate, corpus, budget);
      FilterSnoc(items, item, IsSelected());
      hide Filter;
      items := items + [item];
    }
    assert candidates[..|candidates|] == candidates;
    partial := exists i :: i in items && !i.selected;
  }

  /** A decision in terms of what is chosen and used so far. */
  lemma DecideIs(cs: seq<Fused>, c: Fused, corpus: Corpus, b: Budget)
    ensures var d := Decide(c, cs, Pack(cs, corpus, b), corpus, b);
            var chosen, used := Chosen(cs, corpus, b), Used(cs, corpus, b);
            && d.omitReason == (if c.id in chosen then Some(Duplicate)
                                else if Chooses(c, chosen, used, corpus, b) then None
                                else Some(BudgetExceeded))
            && d.selected == Chooses(c, chosen, used, corpus, b)
            && d == Item(|cs| + 1, c.canonicalType, c.canonicalId, c.revisionId, c.locator,
                         if d.selected then TextOf(c, corpus) else "", d.selected, d.omitReason)
  {
  }

  // ---- the selection is within budget, distinct and maximal ----

  /** Both budgets hold and no id is chosen twice. */
  lemma {:induction false} WithinBudget(cs: seq<Fused>, corpus: Corpus, b: Budget)
    ensures var chosen := Chosen(cs, corpus, b);
            && (chosen != [] ==> |chosen| <= b.maxItems && Used(cs, corpus, b) <= 4 * b.maxTokens)
            && (chosen == [] ==> Used(cs, corpus, b) == 0)
            && (forall i, j :: 0 <= i < j < |chosen| ==> chosen[i] != chosen[j])
  {
    PackNothing(corpus, b);
    hide Chosen;
    hide Used;
    if cs != [] {
      WithinBudget(cs[..|cs| - 1], corpus, b);
      PackLast(cs, corpus, b);
    }
  }

  lemma {:induction false} SelectionGrows(cs: seq<Fused>, corpus: Corpus, b: Budget, n: nat)
    requires n <= |cs|
    ensures Pack(cs, corpus, b)[..n] == Pack(cs[..n], corpus, b)
    ensures Chosen(cs[..n], corpus, b) <= Chosen(cs, corpus, b)
    ensures Used(cs[..n], corpus, b) <= Used(cs, corpus, b)
  {
    hide Pack;
    hide Chosen;
    hide Used;
    if n == |cs| {
      assert cs[..n] == cs;
    } else {
      var m := |cs| - 1;
      SelectionGrows(cs[..m], corpus, b, n);
      assert cs[..m][..n] == cs[..n];
      PackLast(cs, corpus, b);
    }
  }

  /**
   * Nothing left out could still be added: a budget-omitted candidate breaks a bound of the final
   * selection, and a duplicate-omitted one has its id in it.
   */
  lemma OmissionsAreJustified(cs: seq<Fused>, corpus: Corpus, b: Budget, i: nat)
    requires i < |cs|
    ensures var item := Pack(cs, corpus, b)[i];
            var chosen := Chosen(cs, corpus, b);
            && item.rank == i + 1 && item.canonicalId == cs[i].canonicalId && item.revisionId == cs[i].revisionId
            && (item.selected <==> item.omitReason == None)
            && item.text == (if item.selected then TextOf(cs[i], corpus) else "")
            && (item.selected ==> cs[i].id in chosen)
            && (item.omitReason == Some(Duplicate) ==> cs[i].id in chosen)
            && (item.omitReason == Some(BudgetExceeded) ==>
                  |chosen| + 1 > b.maxItems || Used(cs, corpus, b) + |TextOf(cs[i], corpus)| > 4 * b.maxTokens)
  {
    hide Pack;
    hide Chosen;
    hide Used;
    SelectionGrows(cs, corpus, b, i);
    SelectionGrows(cs, corpus, b, i + 1);
    PackNext(cs, i, corpus, b);
    DecideIs(cs[..i], cs[i], corpus, b);
    hide Decide;
    var late := Chosen(cs, corpus, b);
    PrefixKeeps(Chosen(cs[..i], corpus, b), late, cs[i].id);
    PrefixKeeps(Chosen(cs[..i + 1], corpus, b), late, cs[i].id);
    assert Pack(cs, corpus, b)[i] == Pack(cs, corpus, b)[..i + 1][i];
  }

  lemma {:induction false} SelectedIdsAre(cs: seq<Fused>, items: seq<Item>, id: string)
    requires |items| == |cs|
    ensures id in SelectedIds(cs, items) <==> exists j :: 0 <= j < |cs| && cs[j].id == id && items[j].selected
  {
    if cs != [] {
      var n := |cs| - 1;
      SelectedIdsAre(cs[..n], items[..n], id);
    }
  }

  /** An earlier candidate with this id is in the selection. */
  ghost predicate TakenEarlier(cs: seq<Fused>, items: seq<Item>, i: nat)
    requires |items| == |cs| && i < |cs|
  {
    exists j :: 0 <= j < i && cs[j].id == cs[i].id && items[j].selected
  }

  /**
   * One item, read off the finished list: it describes its own candidate, is a duplicate exactly when an
   * earlier item took the id, and shows the corpus' text, else the candidate's snippet, else nothing.
   */
  lemma ItemsDescribeTheirCandidates(cs: seq<Fused>, corpus: Corpus, b: Budget, i: nat)
    requires i < |cs|
    ensures var items := Pack(cs, corpus, b);
            var item, c := items[i], cs[i];
            && item.rank == i + 1 && item.canonicalType == c.canonicalType && item.canonicalId == c.canonicalId
            && item.revisionId == c.revisionId && item.locator == c.locator
            && (item.omitReason == Some(Duplicate) <==> TakenEarlier(cs, items, i))
            && (item.selected <==> item.omitReason == None)
            && (!item.selected ==> item.text == "")
            && (item.selected && c.id in corpus ==> item.text == corpus[c.id])
            && (item.selected && c.id !in corpus && c.snippet.Some? ==> item.text == c.snippet.value)
            && (item.selected && c.id !in corpus && c.snippet == None ==> item.text == "")
  {
    ItemIsDecided(cs, corpus, b, i);
    TakenIffChosen(cs, corpus, b, i);
    DecideIs(cs[..i], cs[i], corpus, b);
    hide Pack;
    hide Chosen;
    hide Used;
    hide Decide;
    hide TakenEarlier;
    hide Chooses;
  }

  lemma ItemIsDecided(cs: seq<Fused>, corpus: Corpus, b: Budget, i: nat)
    requires i < |cs|
    ensures Pack(cs, corpus, b)[i] == Decide(cs[i], cs[..i], Pack(cs[..i], corpus, b), corpus, b)
  {
    hide *;
    SelectionGrows(cs, corpus, b, i + 1);
    PackNext(cs, i, corpus, b);
    assert Pack(cs, corpus, b)[i] == Pack(cs, corpus, b)[..i + 1][i];
  }

  lemma TakenIffChosen(cs: seq<Fused>, corpus: Corpus, b: Budget, i: nat)
    requires i < |cs|
    ensures cs[i].id in Chosen(cs[..i], corpus, b) <==> TakenEarlier(cs, Pack(cs, corpus, b), i)
  {
    hide Pack;
    hide SelectedIds;
    var items := Pack(cs, corpus, b);
    SelectionGrows(cs, corpus, b, i);
    SelectedIdsAre(cs[..i], items[..i], cs[i].id);
    assert forall j :: 0 <= j < i ==> items[..i][j] == items[j] && cs[..i][j] == cs[j];
  }

  /** Snippets of candidates that the corpus has a text for do not matter. */
  lemma {:induction false} CorpusHidesSnippets(cs: seq<Fused>, ds: seq<Fused>, corpus: Corpus, b: Budget)
    requires |cs| == |ds|
    requires forall i :: 0 <= i < |cs| ==>
               ds[i] == cs[i].(snippet := ds[i].snippet) && (cs[i].id !in corpus ==> ds[i] == cs[i])
    ensures Pack(cs, corpus, b) == Pack(ds, corpus, b)
  {
    if cs != [] {
      var n := |cs| - 1;
      CorpusHidesSnippets(cs[..n], ds[..n], corpus, b);
      SameIdsSameSelection(cs[..n], ds[..n], Pack(cs[..n], corpus, b));
      hide SelectedIds;
    }
  }

  lemma {:induction false} SameIdsSameSelection(cs: seq<Fused>, ds: seq<Fused>, items: seq<Item>)
    requires |items| == |cs| == |ds| && forall i :: 0 <= i < |cs| ==> ds[i].id == cs[i].id
    ensures SelectedIds(cs, items) == SelectedIds(ds, items)
  {
    if cs != [] {
      var n := |cs| - 1;
      SameIdsSameSelection(cs[..n], ds[..n], items[..n]);
    }
  }

  lemma PrefixKeeps(s: seq<string>, t: seq<string>, x: string)
    requires s <= t
    ensures x in s ==> x in t
  {
    assert t[..|s|] == s;
  }

  /** Candidates that come later never change an earlier decision. */
  lemma DecisionsAreStable(cs: seq<Fused>, more: seq<Fused>, corpus: Corpus, b: Budget)
    ensures Pack(cs + more, corpus, b)[..|cs|] == Pack(cs, corpus, b)
  {
    SelectionGrows(cs + more, corpus, b, |cs|);
    assert (cs + more)[..|cs|] == cs;
  }

  function Least(a: int, b: int): int { if a < b then a else b }

  /** A smaller item budget selects exactly the first ids of a larger one. */
  lemma {:induction false} FewerItemsIsPrefix(cs: seq<Fused>, corpus: Corpus, tokens: int, small: int, large: int)
    requires small <= large
    ensures var few, many := Chosen(cs, corpus, Budget(tokens, small)), Chosen(cs, corpus, Budget(tokens, large));
            few == many[..Least(if small < 0 then 0 else small, |many|)]
    ensures |Chosen(cs, corpus, Budget(tokens, small))| < small ==>
              Used(cs, corpus, Budget(tokens, small)) == Used(cs, corpus, Budget(tokens, large))
  {
    PackNothing(corpus, Budget(tokens, small));
    PackNothing(corpus, Budget(tokens, large));
    hide Pack;
    hide Decide;
    hide Chosen;
    hide Used;
    if cs != [] {
      FewerItemsIsPrefix(cs[..|cs| - 1], corpus, tokens, small, large);
      PackLast(cs, corpus, Budget(tokens, small));
      PackLast(cs, corpus, Budget(tokens, large));
    }
  }

  // ---- the whole external read ----

  /** `fuse_candidates`, `exclude_private_spaces` and `compile_context` in sequence, for an external read. */
  ghost function ExternalContext(p: Params, lanes: LaneResults, visibility: map<Uuid, Visibility>, corpus: Corpus,
                                 b: Budget)
    : Result<seq<Item>, FusionError>
  {
    match ThenFilter(FusionOf(p, lanes), visibility)
    case Success(candidates) => Success(Pack(candidates, corpus, b))
    case Failure(e) => Failure(e)
  }

  /**
   * Private candidates cannot influence an external context: lane results that agree once private
   * candidates are removed compile to the same items, in the same order, with the same text, or raise
   * alike, as long as no private candidate raises by itself and none shares an id with a visible one.
   */
  lemma PrivateCandidatesLeaveNoTrace(p: Params, lanes: LaneResults, lanes': LaneResults,
                                      visibility: map<Uuid, Visibility>, corpus: Corpus, b: Budget)
    requires OrdersAgree(p, Occurrences(lanes), visibility) && OrdersAgree(p, Occurrences(lanes'), visibility)
    requires FilterLanes(lanes, visibility) == FilterLanes(lanes', visibility)
    ensures ExternalContext(p, lanes, visibility, corpus, b) == ExternalContext(p, lanes', visibility, corpus, b)
  {
    hide FusionOf;
    hide ThenFilter;
    hide OrdersAgree;
    FilterCommutesIff(p, lanes, visibility);
    FilterCommutesIff(p, lanes', visibility);
  }
}
