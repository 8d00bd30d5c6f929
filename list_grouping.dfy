/** The list-grouping pass of the block renderer (`renderBlocks` in
    app/libs/components/ui/NotionBlocks.tsx).

    The specification is run based: a block sequence is cut into maximal
    runs of list items of one kind and single non-list blocks (`Groups`);
    each run becomes one `<ul>`/`<ol>`, each handled single block one `<div>`
    (`Render`). `IsRunDecomposition` characterises the cut independently of
    how `Groups` computes it, and `DecompositionUnique` shows there is only
    one. `RenderBlocks` is the single pass with its output buffer, pending
    items and current list kind, proved to produce `Render(blocks)`. */
module ListGrouping {
  import opened Wrappers
  import opened NotionBlocks

  // ---------------------------------------------------------------------
  // Run decomposition
  // ---------------------------------------------------------------------

  /** A maximal run of list items of one kind, or one non-list block. */
  datatype Group = ListRun(kind: ListKind, items: seq<Block>) | Single(block: Block)

  function GroupBlocks(g: Group): seq<Block>
  {
    match g
    case ListRun(_, items) => items
    case Single(b) => [b]
  }

  /** The blocks of the groups, in order. */
  function Flatten(gs: seq<Group>): seq<Block>
  {
    if gs == [] then [] else GroupBlocks(gs[0]) + Flatten(gs[1..])
  }

  /** A run is non-empty and all its items are list items of its kind; a
      single block is not a list item. */
  predicate WellFormed(g: Group)
  {
    match g
    case ListRun(k, items) => |items| > 0 && forall i :: 0 <= i < |items| ==> items[i].ListKindOf() == Some(k)
    case Single(b) => b.ListKindOf().None?
  }

  /** Two runs of the same kind, which a maximal cut never puts side by side. */
  predicate SameKindRuns(g: Group, h: Group)
  {
    g.ListRun? && h.ListRun? && g.kind == h.kind
  }

  predicate AllWellFormed(gs: seq<Group>)
  {
    forall i :: 0 <= i < |gs| ==> WellFormed(gs[i])
  }

  /** `gs` cuts `s` into maximal runs: together the groups are `s` in order,
      each group is well formed, and no two neighbouring runs share a kind. */
  predicate IsRunDecomposition(s: seq<Block>, gs: seq<Group>)
  {
    && Flatten(gs) == s
    && AllWellFormed(gs)
    && (forall i :: 0 <= i < |gs| - 1 ==> !SameKindRuns(gs[i], gs[i + 1]))
  }

  /** The length of the run of list items of kind `k` that starts `s`. */
  function RunLength(s: seq<Block>, k: ListKind): (n: nat)
    ensures n <= |s|
    ensures forall i :: 0 <= i < n ==> s[i].ListKindOf() == Some(k)
    ensures n < |s| ==> s[n].ListKindOf() != Some(k)
  {
    if s == [] || s[0].ListKindOf() != Some(k) then 0 else 1 + RunLength(s[1..], k)
  }

  /** The maximal-run cut of a block sequence, from left to right. */
  function Groups(s: seq<Block>): (gs: seq<Group>)
    ensures AllWellFormed(gs)
    decreases |s|
  {
    if s == [] then []
    else match s[0].ListKindOf()
      case None => [Single(s[0])] + Groups(s[1..])
      case Some(k) =>
        var n := RunLength(s, k);
        [ListRun(k, s[..n])] + Groups(s[n..])
  }

  lemma {:induction false} FlattenAppend(a: seq<Group>, b: seq<Group>)
    ensures Flatten(a + b) == Flatten(a) + Flatten(b)
    decreases |a|
  {
    if a == [] {
      assert a + b == b;
    } else {
      assert (a + b)[0] == a[0];
      assert (a + b)[1..] == a[1..] + b;
      FlattenAppend(a[1..], b);
    }
  }

  /** The first and the last group of a cut have the kind of the first and
      the last block. */
  lemma {:induction false} DecompositionEnds(s: seq<Block>, gs: seq<Group>)
    requires IsRunDecomposition(s, gs) && s != []
    ensures gs != []
    ensures s[0].ListKindOf() == if gs[0].ListRun? then Some(gs[0].kind) else None
    ensures gs[|gs| - 1].ListRun? ==> Some(gs[|gs| - 1].kind) == s[|s| - 1].ListKindOf()
  {
    assert gs != [];
    assert WellFormed(gs[0]);
    assert s == GroupBlocks(gs[0]) + Flatten(gs[1..]);
    var n := |gs|;
    assert WellFormed(gs[n - 1]);
    assert gs == gs[..n - 1] + [gs[n - 1]];
    FlattenAppend(gs[..n - 1], [gs[n - 1]]);
    assert Flatten([gs[n - 1]]) == GroupBlocks(gs[n - 1]) + Flatten([]);
    var last := GroupBlocks(gs[n - 1]);
    assert s[|s| - 1] == last[|last| - 1];
  }

  /** `Groups` produces a maximal-run cut. */
  lemma {:induction false} GroupsDecompose(s: seq<Block>)
    ensures IsRunDecomposition(s, Groups(s))
    decreases |s|
  {
    if s != [] {
      var gs := Groups(s);
      var g := gs[0];
      var m := |GroupBlocks(g)|;
      assert GroupBlocks(g) == s[..m];
      var rest := Groups(s[m..]);
      assert gs == [g] + rest;
      GroupsDecompose(s[m..]);
      assert Flatten(gs) == GroupBlocks(g) + Flatten(rest) by {
        assert gs[1..] == rest;
      }
      assert s == s[..m] + s[m..];
      if rest != [] && g.ListRun? && rest[0].ListRun? {
        DecompositionEnds(s[m..], rest);
        assert s[m..][0] == s[m];
      }
      forall i | 0 <= i < |gs| - 1
        ensures !SameKindRuns(gs[i], gs[i + 1])
      {
        if i > 0 {
          assert gs[i] == rest[i - 1] && gs[i + 1] == rest[i];
        }
      }
    }
  }

  /** Removing the first group of a cut leaves a cut of the rest. */
  lemma DecompositionTail(s: seq<Block>, gs: seq<Group>)
    requires IsRunDecomposition(s, gs) && gs != []
    ensures |GroupBlocks(gs[0])| <= |s|
    ensures s[..|GroupBlocks(gs[0])|] == GroupBlocks(gs[0])
    ensures IsRunDecomposition(s[|GroupBlocks(gs[0])|..], gs[1..])
  {
    var g, rest := gs[0], gs[1..];
    assert Flatten(gs) == GroupBlocks(g) + Flatten(rest);
    var m := |GroupBlocks(g)|;
    assert s[..m] == GroupBlocks(g) && s[m..] == Flatten(rest);
    forall i | 0 <= i < |rest|
      ensures WellFormed(rest[i])
    {
      assert rest[i] == gs[i + 1];
    }
    forall i | 0 <= i < |rest| - 1
      ensures !SameKindRuns(rest[i], rest[i + 1])
    {
      assert rest[i] == gs[i + 1] && rest[i + 1] == gs[i + 2];
    }
  }

  /** Removing the last group of a cut leaves a cut of what precedes it. */
  lemma DecompositionInit(s: seq<Block>, gs: seq<Group>)
    requires IsRunDecomposition(s, gs) && gs != []
    ensures |GroupBlocks(gs[|gs| - 1])| <= |s|
    ensures s == s[..|s| - |GroupBlocks(gs[|gs| - 1])|] + GroupBlocks(gs[|gs| - 1])
    ensures IsRunDecomposition(s[..|s| - |GroupBlocks(gs[|gs| - 1])|], gs[..|gs| - 1])
  {
    var n := |gs|;
    var init, last := gs[..n - 1], gs[n - 1];
    assert gs == init + [last];
    FlattenAppend(init, [last]);
    assert Flatten([last]) == GroupBlocks(last) + Flatten([]);
    assert s[..|s| - |GroupBlocks(last)|] == Flatten(init);
    forall i | 0 <= i < |init|
      ensures WellFormed(init[i])
    {
      assert init[i] == gs[i];
    }
    forall i | 0 <= i < |init| - 1
      ensures !SameKindRuns(init[i], init[i + 1])
    {
      assert init[i] == gs[i] && init[i + 1] == gs[i + 1];
    }
  }

  /** A run of kind `k` that ends where the next block is not of kind `k`
      has the length `RunLength` computes. */
  lemma RunLengthIs(s: seq<Block>, k: ListKind, m: nat)
    requires m <= |s|
    requires forall i :: 0 <= i < m ==> s[i].ListKindOf() == Some(k)
    requires m < |s| ==> s[m].ListKindOf() != Some(k)
    ensures RunLength(s, k) == m
  {
  }

  /** A maximal-run cut is unique: whatever produces one produces `Groups(s)`. */
  lemma {:induction false} DecompositionUnique(s: seq<Block>, gs: seq<Group>)
    requires IsRunDecomposition(s, gs)
    ensures gs == Groups(s)
    decreases |gs|
  {
    if gs == [] {
      assert s == [];
    } else {
      var g, rest := gs[0], gs[1..];
      DecompositionTail(s, gs);
      var m := |GroupBlocks(g)|;
      DecompositionUnique(s[m..], rest);
      assert gs == [g] + rest;
      assert WellFormed(g);
      match g
      case Single(b) =>
        assert s[0] == b;
      case ListRun(k, items) =>
        assert s[0] == items[0];
        if m < |s| {
          DecompositionEnds(s[m..], rest);
          assert s[m..][0] == s[m];
          assert !SameKindRuns(gs[0], gs[1]);
          assert gs[1] == rest[0];
        }
        RunLengthIs(s, k, m);
    }
  }

  /** Two cuts side by side form the cut of the joined sequences, unless the
      runs at the seam share a kind. */
  lemma {:induction false} DecompositionAppend(s1: seq<Block>, g1: seq<Group>, s2: seq<Block>, g2: seq<Group>)
    requires IsRunDecomposition(s1, g1) && IsRunDecomposition(s2, g2)
    requires g1 != [] && g2 != [] ==> !SameKindRuns(g1[|g1| - 1], g2[0])
    ensures IsRunDecomposition(s1 + s2, g1 + g2)
  {
    FlattenAppend(g1, g2);
    var gs := g1 + g2;
    forall i | 0 <= i < |gs|
      ensures WellFormed(gs[i])
    {
      if i >= |g1| { assert gs[i] == g2[i - |g1|]; }
    }
    forall i | 0 <= i < |gs| - 1
      ensures !SameKindRuns(gs[i], gs[i + 1])
    {
      if i >= |g1| {
        assert gs[i] == g2[i - |g1|] && gs[i + 1] == g2[i + 1 - |g1|];
      } else if i == |g1| - 1 {
        assert gs[i + 1] == g2[0];
      }
    }
  }

  /** Each additional block either extends the last run or starts a new group. */
  function Extend(gs: seq<Group>, b: Block): seq<Group>
  {
    match b.ListKindOf()
    case None => gs + [Single(b)]
    case Some(k) =>
      if gs != [] && gs[|gs| - 1].ListRun? && gs[|gs| - 1].kind == k then
        gs[..|gs| - 1] + [ListRun(k, gs[|gs| - 1].items + [b])]
      else gs + [ListRun(k, [b])]
  }

  /** Cutting one more block: the cut of `s + [b]` is that of `s`, extended by `b`. */
  lemma GroupsSnoc(s: seq<Block>, b: Block)
    ensures Groups(s + [b]) == Extend(Groups(s), b)
  {
    var gs := Groups(s);
    GroupsDecompose(s);
    match b.ListKindOf()
    case None =>
      AppendGroup(s, gs, b, Single(b));
    case Some(k) =>
      if gs != [] && gs[|gs| - 1].ListRun? && gs[|gs| - 1].kind == k {
        GrowLastRun(s, gs, b, k);
      } else {
        AppendGroup(s, gs, b, ListRun(k, [b]));
      }
  }

  lemma AppendGroup(s: seq<Block>, gs: seq<Group>, b: Block, g: Group)
    requires IsRunDecomposition(s, gs)
    requires GroupBlocks(g) == [b] && WellFormed(g)
    requires gs != [] ==> !SameKindRuns(gs[|gs| - 1], g)
    ensures Groups(s + [b]) == gs + [g]
  {
    assert IsRunDecomposition([b], [g]) by {
      assert Flatten([g]) == [b] + Flatten([]);
    }
    DecompositionAppend(s, gs, [b], [g]);
    DecompositionUnique(s + [b], gs + [g]);
  }

  lemma GrowLastRun(s: seq<Block>, gs: seq<Group>, b: Block, k: ListKind)
    requires IsRunDecomposition(s, gs)
    requires gs != [] && gs[|gs| - 1].ListRun? && gs[|gs| - 1].kind == k
    requires b.ListKindOf() == Some(k)
    ensures Groups(s + [b]) == gs[..|gs| - 1] + [ListRun(k, gs[|gs| - 1].items + [b])]
  {
    ExtendLastRun(s, gs, b, k);
    DecompositionUnique(s + [b], gs[..|gs| - 1] + [ListRun(k, gs[|gs| - 1].items + [b])]);
  }

  /** A non-empty run of list items of one kind is a cut on its own. */
  lemma RunDecomposition(k: ListKind, items: seq<Block>)
    requires |items| > 0 && forall i :: 0 <= i < |items| ==> items[i].ListKindOf() == Some(k)
    ensures IsRunDecomposition(items, [ListRun(k, items)])
  {
    assert Flatten([ListRun(k, items)]) == items + Flatten([]);
  }

  lemma ExtendLastRun(s: seq<Block>, gs: seq<Group>, b: Block, k: ListKind)
    requires IsRunDecomposition(s, gs)
    requires gs != [] && gs[|gs| - 1].ListRun? && gs[|gs| - 1].kind == k
    requires b.ListKindOf() == Some(k)
    ensures IsRunDecomposition(s + [b], gs[..|gs| - 1] + [ListRun(k, gs[|gs| - 1].items + [b])])
  {
    var n := |gs|;
    var init, items := gs[..n - 1], gs[n - 1].items;
    DecompositionInit(s, gs);
    var p := s[..|s| - |items|];
    assert WellFormed(gs[n - 1]);
    var items' := items + [b];
    forall i | 0 <= i < |items'|
      ensures items'[i].ListKindOf() == Some(k)
    {
      if i < |items| { assert items'[i] == items[i]; }
    }
    RunDecomposition(k, items');
    if n > 1 {
      assert !SameKindRuns(gs[n - 2], gs[n - 1]);
      assert init[|init| - 1] == gs[n - 2];
    }
    DecompositionAppend(p, init, items', [ListRun(k, items')]);
    assert p + items' == s + [b];
  }

  // ---------------------------------------------------------------------
  // Rendering a cut
  // ---------------------------------------------------------------------

  /** The list container the source builds from the pending kind: `<ul>`
      for bulleted, `<ol>` otherwise. */
  function ListContainer(listType: Option<ListKind>, items: seq<Node>): (n: Node)
    ensures n.Ul? <==> listType == Some(Bulleted)
    ensures n.Ol? <==> listType != Some(Bulleted)
    ensures n.items == items
  {
    if listType == Some(Bulleted) then Ul(items) else Ol(items)
  }

  /** The `<li>` of each list item, in order. */
  function RenderItems(items: seq<Block>): (r: seq<Node>)
    requires forall i :: 0 <= i < |items| ==> items[i].ListKindOf().Some?
    ensures |r| == |items|
    ensures forall i :: 0 <= i < |items| ==> r[i] == RenderBlock(items[i]).value && r[i].Li?
  {
    seq(|items|, i requires 0 <= i < |items| => RenderBlock(items[i]).value)
  }

  function RenderGroup(g: Group): seq<Node>
    requires WellFormed(g)
  {
    match g
    case ListRun(k, items) => [ListContainer(Some(k), RenderItems(items))]
    case Single(b) =>
      match RenderBlock(b)
      case Some(n) => [Div(n)]
      case None => []
  }

  function RenderGroups(gs: seq<Group>): seq<Node>
    requires AllWellFormed(gs)
  {
    if gs == [] then [] else RenderGroup(gs[0]) + RenderGroups(gs[1..])
  }

  /** What `renderBlocks` returns for a block sequence. */
  function Render(s: seq<Block>): seq<Node>
  {
    RenderGroups(Groups(s))
  }

  lemma AllWellFormedAppend(a: seq<Group>, b: seq<Group>)
    requires AllWellFormed(a) && AllWellFormed(b)
    ensures AllWellFormed(a + b)
  {
    forall i | 0 <= i < |a + b|
      ensures WellFormed((a + b)[i])
    {
      if i < |a| {
        assert (a + b)[i] == a[i];
      } else {
        assert (a + b)[i] == b[i - |a|];
      }
    }
  }

  lemma {:induction false} RenderGroupsAppend(a: seq<Group>, b: seq<Group>)
    requires AllWellFormed(a) && AllWellFormed(b)
    ensures AllWellFormed(a + b)
    ensures RenderGroups(a + b) == RenderGroups(a) + RenderGroups(b)
    decreases |a|
  {
    AllWellFormedAppend(a, b);
    if a == [] {
      assert a + b == b;
    } else {
      assert (a + b)[0] == a[0];
      assert (a + b)[1..] == a[1..] + b;
      assert AllWellFormed(a[1..]);
      RenderGroupsAppend(a[1..], b);
    }
  }

  // ---------------------------------------------------------------------
  // The single pass (renderBlocks)
  // ---------------------------------------------------------------------

  /** The state of the pass after the blocks `prefix`: `content` holds the
      rendering of every group but a trailing run, whose items are pending in
      `listItems` under kind `listType`; once `flushed`, the trailing run has
      been emitted as well. */
  ghost predicate PassState(prefix: seq<Block>, content: seq<Node>, listItems: seq<Node>,
                            listType: Option<ListKind>, flushed: bool)
  {
    var gs := Groups(prefix);
    if listItems == [] then
      && listType.None?
      && (gs == [] || !gs[|gs| - 1].ListRun?)
      && content == RenderGroups(gs)
    else
      && gs != [] && gs[|gs| - 1].ListRun?
      && listType == Some(gs[|gs| - 1].kind)
      && listItems == RenderItems(gs[|gs| - 1].items)
      && content == if flushed then RenderGroups(gs) else RenderGroups(gs[..|gs| - 1])
  }

  lemma SplitLast(gs: seq<Group>)
    requires gs != [] && AllWellFormed(gs)
    ensures gs == gs[..|gs| - 1] + [gs[|gs| - 1]]
    ensures RenderGroups(gs) == RenderGroups(gs[..|gs| - 1]) + RenderGroup(gs[|gs| - 1])
  {
    var init, last := gs[..|gs| - 1], gs[|gs| - 1];
    assert gs == init + [last];
    assert AllWellFormed(init);
    assert WellFormed(last);
    assert RenderGroups([last]) == RenderGroup(last) + RenderGroups([]);
    RenderGroupsAppend(init, [last]);
  }

  /** A list item of kind `k`: pending items of another kind are flushed
      first, then the item joins the pending list. */
  lemma ListItemStep(blocks: seq<Block>, index: nat, k: ListKind,
                     content: seq<Node>, listItems: seq<Node>, listType: Option<ListKind>,
                     content': seq<Node>, listItems': seq<Node>)
    requires index < |blocks|
    requires PassState(blocks[..index], content, listItems, listType, false)
    requires blocks[index].ListKindOf() == Some(k)
    requires var flush := listType != Some(k) && |listItems| > 0;
      && content' == (if flush then content + [ListContainer(listType, listItems)] else content)
      && listItems' == (if flush then [] else listItems) + [RenderBlock(blocks[index]).value]
    ensures PassState(blocks[..index + 1], content', listItems', Some(k), false)
  {
    var prefix, b := blocks[..index], blocks[index];
    assert blocks[..index + 1] == prefix + [b];
    if listType == Some(k) && listItems != [] {
      JoinRun(prefix, b, k, content, listItems);
    } else {
      StartRun(prefix, b, k, content, listItems, listType);
    }
  }

  lemma RenderItemsSnoc(items: seq<Block>, b: Block)
    requires forall i :: 0 <= i < |items| ==> items[i].ListKindOf().Some?
    requires b.ListKindOf().Some?
    ensures RenderItems(items + [b]) == RenderItems(items) + [RenderBlock(b).value]
  {
    var all := items + [b];
    assert forall i :: 0 <= i < |items| ==> all[i] == items[i];
    assert all[|items|] == b;
  }

  /** A list item of the pending kind joins the pending list. */
  lemma JoinRun(prefix: seq<Block>, b: Block, k: ListKind, content: seq<Node>, listItems: seq<Node>)
    requires PassState(prefix, content, listItems, Some(k), false) && listItems != []
    requires b.ListKindOf() == Some(k)
    ensures PassState(prefix + [b], content, listItems + [RenderBlock(b).value], Some(k), false)
  {
    var gs := Groups(prefix);
    GroupsSnoc(prefix, b);
    var gs' := Groups(prefix + [b]);
    var items := gs[|gs| - 1].items;
    assert WellFormed(gs[|gs| - 1]);
    assert gs' == gs[..|gs| - 1] + [ListRun(k, items + [b])];
    assert gs'[..|gs'| - 1] == gs[..|gs| - 1];
    RenderItemsSnoc(items, b);
  }

  /** Any other list item flushes the pending items, if any, and opens a new
      pending list. */
  lemma StartRun(prefix: seq<Block>, b: Block, k: ListKind,
                 content: seq<Node>, listItems: seq<Node>, listType: Option<ListKind>)
    requires PassState(prefix, content, listItems, listType, false)
    requires !(listType == Some(k) && listItems != [])
    requires b.ListKindOf() == Some(k)
    ensures PassState(prefix + [b],
                      if listItems != [] then content + [ListContainer(listType, listItems)] else content,
                      [RenderBlock(b).value], Some(k), false)
  {
    var gs := Groups(prefix);
    GroupsSnoc(prefix, b);
    var gs' := Groups(prefix + [b]);
    if listItems != [] {
      SplitLast(gs);
    }
    assert gs' == gs + [ListRun(k, [b])];
    assert gs'[..|gs'| - 1] == gs;
    assert RenderItems([b]) == [RenderBlock(b).value];
  }

  /** A non-list block: pending items are flushed, the kind is reset, and the
      block's own rendering, if any, follows inside a `<div>`. */
  lemma OtherBlockStep(blocks: seq<Block>, index: nat, flushed: bool,
                       content: seq<Node>, listItems: seq<Node>, listType: Option<ListKind>,
                       content': seq<Node>)
    requires index < |blocks|
    requires PassState(blocks[..index], content, listItems, listType, false)
    requires blocks[index].ListKindOf().None?
    requires var b := blocks[index];
      var flushedContent := if |listItems| > 0 then content + [ListContainer(listType, listItems)] else content;
      content' == flushedContent + (if RenderBlock(b).Some? then [Div(RenderBlock(b).value)] else [])
    ensures PassState(blocks[..index + 1], content', [], None, flushed)
  {
    var prefix, b := blocks[..index], blocks[index];
    assert blocks[..index + 1] == prefix + [b];
    CloseWithBlock(prefix, b, content, listItems, listType);
    RenderGroupsAppend(Groups(prefix), [Single(b)]);
  }

  /** The state after a non-list block `b`: the groups of `prefix`, all
      rendered, followed by the rendering of `b` alone. */
  lemma CloseWithBlock(prefix: seq<Block>, b: Block,
                       content: seq<Node>, listItems: seq<Node>, listType: Option<ListKind>)
    requires PassState(prefix, content, listItems, listType, false)
    requires b.ListKindOf().None?
    ensures var gs := Groups(prefix + [b]);
      && gs == Groups(prefix) + [Single(b)]
      && AllWellFormed(Groups(prefix))
      && RenderGroups(Groups(prefix)) == if |listItems| > 0 then content + [ListContainer(listType, listItems)] else content
  {
    var gs := Groups(prefix);
    GroupsSnoc(prefix, b);
    if listItems != [] {
      SplitLast(gs);
    }
  }

  /** The last block was a list item: the pending list is emitted. */
  lemma FinalFlush(s: seq<Block>, content: seq<Node>, listItems: seq<Node>, listType: Option<ListKind>)
    requires PassState(s, content, listItems, listType, false) && listItems != []
    ensures PassState(s, content + [ListContainer(listType, listItems)], listItems, listType, true)
  {
    SplitLast(Groups(s));
  }

  /** The loop of `renderBlocks`: list items accumulate in `listItems` while
      their kind stays the same; a change of kind, a non-list block and the
      end of the input after a list item each flush them into one container;
      every handled non-list block is appended inside a `<div>`. */
  method RenderBlocks(blocks: seq<Block>) returns (content: seq<Node>)
    ensures content == Render(blocks)
  {
    content := [];
    var listItems: seq<Node> := [];
    var listType: Option<ListKind> := None;
    for index := 0 to |blocks|
      invariant PassState(blocks[..index], content, listItems, listType, index == |blocks|)
    {
      var block := blocks[index];
      ghost var content0, listItems0, listType0 := content, listItems, listType;
      if block.ListKindOf().Some? {
        var currentListType := block.ListKindOf().value;
        if listType != Some(currentListType) && |listItems| > 0 {
          content := content + [ListContainer(listType, listItems)];
          listItems := [];
        }
        listType := Some(currentListType);
        listItems := listItems + [RenderBlock(block).value];
        ListItemStep(blocks, index, currentListType, content0, listItems0, listType0, content, listItems);
        if index == |blocks| - 1 {
          FinalFlush(blocks[..index + 1], content, listItems, listType);
          content := content + [ListContainer(listType, listItems)];
        }
      } else {
        if |listItems| > 0 {
          content := content + [ListContainer(listType, listItems)];
          listItems := [];
          listType := None;
        }
        var rendered := RenderBlock(block);
        if rendered.Some? {
          content := content + [Div(rendered.value)];
        }
        OtherBlockStep(blocks, index, index + 1 == |blocks|, content0, listItems0, listType0, content);
      }
    }
    assert blocks[..|blocks|] == blocks;
  }

  // ---------------------------------------------------------------------
  // Properties of the rendering
  // ---------------------------------------------------------------------

  /** The blocks `a` and `b` are list items of the same kind. */
  predicate SameKindItems(a: Block, b: Block)
  {
    a.ListKindOf().Some? && a.ListKindOf() == b.ListKindOf()
  }

  /** Output order follows input order: where the seam between `s1` and `s2`
      does not join two list items of one kind, the rendering of `s1 + s2` is
      that of `s1` followed by that of `s2`. */
  lemma RenderSplit(s1: seq<Block>, s2: seq<Block>)
    requires s1 != [] && s2 != [] ==> !SameKindItems(s1[|s1| - 1], s2[0])
    ensures Render(s1 + s2) == Render(s1) + Render(s2)
  {
    var g1, g2 := Groups(s1), Groups(s2);
    GroupsDecompose(s1);
    GroupsDecompose(s2);
    if s1 != [] { DecompositionEnds(s1, g1); }
    if s2 != [] { DecompositionEnds(s2, g2); }
    DecompositionAppend(s1, g1, s2, g2);
    DecompositionUnique(s1 + s2, g1 + g2);
    RenderGroupsAppend(g1, g2);
  }

  /** A non-empty sequence of list items of one kind renders as exactly one
      container of that kind holding one `<li>` per item, in order. */
  lemma SameKindRunIsOneContainer(s: seq<Block>, k: ListKind)
    requires s != []
    requires forall i :: 0 <= i < |s| ==> s[i].ListKindOf() == Some(k)
    ensures Render(s) == [ListContainer(Some(k), RenderItems(s))]
  {
    var gs := [ListRun(k, s)];
    assert Flatten(gs) == s + Flatten([]);
    assert IsRunDecomposition(s, gs);
    DecompositionUnique(s, gs);
    assert RenderGroups(gs) == RenderGroup(gs[0]) + RenderGroups([]);
  }

  /** A change of list kind closes the pending container and opens a new one:
      each container holds only the items of its own kind. */
  lemma KindChangeSplits(s1: seq<Block>, k1: ListKind, s2: seq<Block>, k2: ListKind)
    requires s1 != [] && s2 != [] && k1 != k2
    requires forall i :: 0 <= i < |s1| ==> s1[i].ListKindOf() == Some(k1)
    requires forall i :: 0 <= i < |s2| ==> s2[i].ListKindOf() == Some(k2)
    ensures Render(s1 + s2) == [ListContainer(Some(k1), RenderItems(s1)), ListContainer(Some(k2), RenderItems(s2))]
  {
    RenderSplit(s1, s2);
    SameKindRunIsOneContainer(s1, k1);
    SameKindRunIsOneContainer(s2, k2);
  }

  /** A non-list block closes any pending list: what comes before it, the
      block itself and what comes after it are rendered independently. */
  lemma NonListBlockSeparates(s1: seq<Block>, b: Block, s2: seq<Block>)
    requires b.ListKindOf().None?
    ensures Render(s1 + [b] + s2) == Render(s1) + Render([b]) + Render(s2)
    ensures Render([b]) == if RenderBlock(b).Some? then [Div(RenderBlock(b).value)] else []
  {
    RenderSplit(s1, [b]);
    RenderSplit(s1 + [b], s2);
    assert Groups([b]) == [Single(b)] + Groups([]);
    assert RenderGroups([Single(b)]) == RenderGroup(Single(b)) + RenderGroups([]);
  }

  /** An unsupported block renders as nothing, yet still ends a pending list. */
  lemma UnsupportedBlockDropped(s1: seq<Block>, t: string, s2: seq<Block>)
    ensures Render(s1 + [Unsupported(t)] + s2) == Render(s1) + Render(s2)
  {
    NonListBlockSeparates(s1, Unsupported(t), s2);
  }

  /** Number of list-item blocks. */
  function CountListItems(s: seq<Block>): nat
  {
    if s == [] then 0 else (if s[0].ListKindOf().Some? then 1 else 0) + CountListItems(s[1..])
  }

  /** Number of handled non-list blocks. */
  function CountWrapped(s: seq<Block>): nat
  {
    if s == [] then 0
    else (if s[0].ListKindOf().None? && !s[0].Unsupported? then 1 else 0) + CountWrapped(s[1..])
  }

  /** Number of `<li>` entries across the list containers of `nodes`. */
  function ListEntries(nodes: seq<Node>): nat
  {
    if nodes == [] then 0
    else (if nodes[0].Ul? || nodes[0].Ol? then |nodes[0].items| else 0) + ListEntries(nodes[1..])
  }

  /** Number of `<div>` wrappers in `nodes`. */
  function DivCount(nodes: seq<Node>): nat
  {
    if nodes == [] then 0 else (if nodes[0].Div? then 1 else 0) + DivCount(nodes[1..])
  }

  /** Every entry of every list container is an `<li>`. */
  predicate EntriesAreLi(nodes: seq<Node>)
  {
    forall i, j :: 0 <= i < |nodes| && (nodes[i].Ul? || nodes[i].Ol?) && 0 <= j < |nodes[i].items| ==>
      nodes[i].items[j].Li?
  }

  lemma {:induction false} CountListItemsAppend(a: seq<Block>, b: seq<Block>)
    ensures CountListItems(a + b) == CountListItems(a) + CountListItems(b)
    ensures CountWrapped(a + b) == CountWrapped(a) + CountWrapped(b)
    decreases |a|
  {
    if a == [] {
      assert a + b == b;
    } else {
      assert (a + b)[0] == a[0];
      assert (a + b)[1..] == a[1..] + b;
      CountListItemsAppend(a[1..], b);
    }
  }

  lemma {:induction false} NodeCountsAppend(a: seq<Node>, b: seq<Node>)
    ensures ListEntries(a + b) == ListEntries(a) + ListEntries(b)
    ensures DivCount(a + b) == DivCount(a) + DivCount(b)
    decreases |a|
  {
    if a == [] {
      assert a + b == b;
    } else {
      assert (a + b)[0] == a[0];
      assert (a + b)[1..] == a[1..] + b;
      NodeCountsAppend(a[1..], b);
    }
  }

  lemma {:induction false} CountAllListItems(s: seq<Block>)
    requires forall i :: 0 <= i < |s| ==> s[i].ListKindOf().Some?
    ensures CountListItems(s) == |s| && CountWrapped(s) == 0
    decreases |s|
  {
    if s != [] {
      CountAllListItems(s[1..]);
    }
  }

  lemma {:induction false} GroupCounts(gs: seq<Group>)
    requires AllWellFormed(gs)
    ensures ListEntries(RenderGroups(gs)) == CountListItems(Flatten(gs))
    ensures DivCount(RenderGroups(gs)) == CountWrapped(Flatten(gs))
    ensures EntriesAreLi(RenderGroups(gs))
    decreases |gs|
  {
    if gs != [] {
      var g, rest := gs[0], gs[1..];
      assert AllWellFormed(rest);
      GroupCounts(rest);
      var head := RenderGroup(g);
      NodeCountsAppend(head, RenderGroups(rest));
      CountListItemsAppend(GroupBlocks(g), Flatten(rest));
      match g
      case ListRun(k, items) =>
        CountAllListItems(items);
        assert ListEntries(head) == |items| + ListEntries([]);
        assert DivCount(head) == 0 + DivCount([]);
      case Single(b) =>
        assert CountListItems([b]) == 0 + CountListItems([]);
        assert CountWrapped([b]) == (if b.Unsupported? then 0 else 1) + CountWrapped([]);
        if head != [] {
          assert ListEntries(head) == 0 + ListEntries([]);
          assert DivCount(head) == 1 + DivCount([]);
        }
      var all := head + RenderGroups(rest);
      forall i, j | 0 <= i < |all| && (all[i].Ul? || all[i].Ol?) && 0 <= j < |all[i].items|
        ensures all[i].items[j].Li?
      {
        if i >= |head| {
          assert all[i] == RenderGroups(rest)[i - |head|];
        }
      }
    }
  }

  /** No list item is lost or duplicated: the containers hold, in all, one
      `<li>` per list-item block; every handled non-list block yields one
      `<div>`, and nothing else does. */
  lemma RenderCounts(s: seq<Block>)
    ensures ListEntries(Render(s)) == CountListItems(s)
    ensures DivCount(Render(s)) == CountWrapped(s)
    ensures EntriesAreLi(Render(s))
  {
    GroupsDecompose(s);
    GroupCounts(Groups(s));
  }

  /** A single unstyled, unlinked span. */
  function PlainSpan(s: string): seq<RichTextItem>
  {
    [RichTextItem(s, None, NoAnnotations)]
  }

  lemma PlainSpanRenders(s: string)
    ensures RenderSpans(PlainSpan(s)) == [Text(s)]
  {
    PlainSpanIsBareText(RichTextItem(s, None, NoAnnotations));
  }

  lemma PlainParagraphRenders(s: string)
    requires forall i :: 0 <= i < |s| ==> s[i] as int < 128
    ensures Render([Paragraph(PlainSpan(s))]) == [Div(P("en", [Text(s)]))]
  {
    PlainSpanRenders(s);
    assert PlainText(PlainSpan(s)) == s + PlainText([]);
    AsciiIsEnglish(PlainSpan(s));
    NonListBlockSeparates([], Paragraph(PlainSpan(s)), []);
  }

  /** Two bulleted items followed by one numbered item: one `<ul>` with two
      entries, then one `<ol>` with one entry. */
  lemma ListsExample(x: string, y: string, z: string)
    ensures Render([BulletedListItem(PlainSpan(x)), BulletedListItem(PlainSpan(y)), NumberedListItem(PlainSpan(z))])
      == [Ul([Li([Text(x)]), Li([Text(y)])]), Ol([Li([Text(z)])])]
  {
    var a, b, c := BulletedListItem(PlainSpan(x)), BulletedListItem(PlainSpan(y)), NumberedListItem(PlainSpan(z));
    PlainSpanRenders(x);
    PlainSpanRenders(y);
    PlainSpanRenders(z);
    assert [a, b, c] == [a, b] + [c];
    KindChangeSplits([a, b], Bulleted, [c], Numbered);
    assert RenderItems([a, b]) == [Li([Text(x)]), Li([Text(y)])];
    assert RenderItems([c]) == [Li([Text(z)])];
  }

  /** A block that is not a list item, in front of any blocks, renders as its
      own output followed by theirs. */
  lemma LeadingBlock(b: Block, rest: seq<Block>)
    requires b.ListKindOf().None?
    ensures Render([b] + rest) == Render([b]) + Render(rest)
  {
    assert [] + [b] + rest == [b] + rest;
    NonListBlockSeparates([], b, rest);
    assert Render([]) == [];
  }

  /** The lists of `ListsExample` closed by an unstyled paragraph. */
  lemma ListsThenParagraph(x: string, y: string, z: string, done: string)
    requires forall i :: 0 <= i < |done| ==> done[i] as int < 128
    ensures Render([BulletedListItem(PlainSpan(x)), BulletedListItem(PlainSpan(y)), NumberedListItem(PlainSpan(z)),
                    Paragraph(PlainSpan(done))])
      == [Ul([Li([Text(x)]), Li([Text(y)])]), Ol([Li([Text(z)])]), Div(P("en", [Text(done)]))]
  {
    var a, b, c, p2 := BulletedListItem(PlainSpan(x)), BulletedListItem(PlainSpan(y)), NumberedListItem(PlainSpan(z)),
                       Paragraph(PlainSpan(done));
    ListsExample(x, y, z);
    PlainParagraphRenders(done);
    assert [a, b, c, p2] == [a, b, c] + [p2] + [];
    NonListBlockSeparates([a, b, c], p2, []);
    assert Render([]) == [];
  }

  /** An unstyled heading renders as one `<div>` around it. */
  lemma PlainHeadingRenders(s: string)
    ensures Render([Heading1(PlainSpan(s))]) == [Div(H1([Text(s)]))]
  {
    PlainSpanRenders(s);
    NonListBlockSeparates([], Heading1(PlainSpan(s)), []);
  }

  /** The end-to-end example, for any texts: a heading, a paragraph, two
      bulleted items, one numbered item and a closing paragraph become a
      heading, a paragraph, one `<ul>` with two entries, one `<ol>` with one
      entry and a paragraph, in that order. */
  lemma MixedDocumentExample(intro: string, hello: string, x: string, y: string, z: string, done: string)
    requires forall i :: 0 <= i < |hello| ==> hello[i] as int < 128
    requires forall i :: 0 <= i < |done| ==> done[i] as int < 128
    ensures
      Render([Heading1(PlainSpan(intro)), Paragraph(PlainSpan(hello)), BulletedListItem(PlainSpan(x)),
              BulletedListItem(PlainSpan(y)), NumberedListItem(PlainSpan(z)), Paragraph(PlainSpan(done))])
      == [Div(H1([Text(intro)])), Div(P("en", [Text(hello)])),
          Ul([Li([Text(x)]), Li([Text(y)])]), Ol([Li([Text(z)])]),
          Div(P("en", [Text(done)]))]
  {
    var h, p1, a, b, c, p2 :=
      Heading1(PlainSpan(intro)), Paragraph(PlainSpan(hello)), BulletedListItem(PlainSpan(x)),
      BulletedListItem(PlainSpan(y)), NumberedListItem(PlainSpan(z)), Paragraph(PlainSpan(done));
    var rest := [a, b, c, p2];
    var tail := [p1] + rest;
    var lists := [Ul([Li([Text(x)]), Li([Text(y)])]), Ol([Li([Text(z)])]), Div(P("en", [Text(done)]))];
    calc {
      Render([h, p1, a, b, c, p2]);
      { assert [h, p1, a, b, c, p2] == [h] + tail; }
      Render([h] + tail);
      { LeadingBlock(h, tail); }
      Render([h]) + Render(tail);
      { LeadingBlock(p1, rest); }
      Render([h]) + (Render([p1]) + Render(rest));
      { PlainHeadingRenders(intro); PlainParagraphRenders(hello); ListsThenParagraph(x, y, z, done); }
      [Div(H1([Text(intro)]))] + ([Div(P("en", [Text(hello)]))] + lists);
    }
  }
}
