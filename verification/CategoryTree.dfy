/** The catalogue sidebar: the path to the active category, and the search that prunes the tree. */
module CategoryTree {
  import opened JsStrings
  import opened Options

  /** A node's children may be absent, which is not the same as an empty list. */
  datatype Node = Node(slug: string, name: string, children: Children)
  datatype Children = Absent | Listed(nodes: seq<Node>)

  // ----- The path to the active node -----

  /** The recursion of the code: the loop over the nodes is the second recursive call. */
  function PathOfActive(nodes: seq<Node>, slug: Option<string>, trail: seq<string>): Option<seq<string>>
    decreases nodes
  {
    if slug.None? || slug.value == "" || nodes == [] then None
    else
      var next := trail + [nodes[0].slug];
      if nodes[0].slug == slug.value then Some(next)
      else
        var found := if nodes[0].children.Listed? then PathOfActive(nodes[0].children.nodes, slug, next) else None;
        if found.Some? then found else PathOfActive(nodes[1..], slug, trail)
  }

  /** The root-to-node slug paths of all nodes, in preorder. */
  function Trails(nodes: seq<Node>, trail: seq<string>): seq<seq<string>>
    decreases nodes
  {
    if nodes == [] then []
    else
      var next := trail + [nodes[0].slug];
      [next]
      + (if nodes[0].children.Listed? then Trails(nodes[0].children.nodes, next) else [])
      + Trails(nodes[1..], trail)
  }

  /** The first path that ends in the slug. */
  function FirstEnding(trails: seq<seq<string>>, slug: string): Option<seq<string>> {
    if trails == [] then None
    else if trails[0] != [] && trails[0][|trails[0]| - 1] == slug then Some(trails[0])
    else FirstEnding(trails[1..], slug)
  }

  lemma {:induction false} FirstEndingOfConcat(a: seq<seq<string>>, b: seq<seq<string>>, slug: string)
    ensures FirstEnding(a + b, slug)
         == if FirstEnding(a, slug).Some? then FirstEnding(a, slug) else FirstEnding(b, slug)
  {
    if a == [] {
      assert a + b == b;
    } else {
      assert (a + b)[0] == a[0] && (a + b)[1..] == a[1..] + b;
      FirstEndingOfConcat(a[1..], b, slug);
    }
  }

  /** The path returned is that of the first node in preorder with the slug. */
  lemma {:induction false} PathIsFirstInPreorder(nodes: seq<Node>, slug: string, trail: seq<string>)
    ensures PathOfActive(nodes, Some(slug), trail)
         == if slug == "" then None else FirstEnding(Trails(nodes, trail), slug)
    decreases nodes
  {
    if slug != "" && nodes != [] {
      var next := trail + [nodes[0].slug];
      var inner := if nodes[0].children.Listed? then Trails(nodes[0].children.nodes, next) else [];
      if nodes[0].children.Listed? {
        PathIsFirstInPreorder(nodes[0].children.nodes, slug, next);
      }
      PathIsFirstInPreorder(nodes[1..], slug, trail);
      FirstEndingOfConcat([next] + inner, Trails(nodes[1..], trail), slug);
      FirstEndingOfConcat([next], inner, slug);
      assert next[|next| - 1] == nodes[0].slug;
      assert [next][1..] == [];
    }
  }

  /** The slugs of all nodes. */
  function Slugs(nodes: seq<Node>): set<string>
    decreases nodes
  {
    if nodes == [] then {}
    else
      {nodes[0].slug}
      + (if nodes[0].children.Listed? then Slugs(nodes[0].children.nodes) else {})
      + Slugs(nodes[1..])
  }

  /** `n` is a node of the forest, at whatever depth. */
  predicate Within(n: Node, nodes: seq<Node>)
    decreases nodes
  {
    && nodes != []
    && (|| nodes[0] == n || (nodes[0].children.Listed? && Within(n, nodes[0].children.nodes))
        || Within(n, nodes[1..]))
  }

  lemma {:induction false} SlugsAreOfNodes(nodes: seq<Node>, slug: string)
    ensures slug in Slugs(nodes) <==> exists n :: Within(n, nodes) && n.slug == slug
    decreases nodes
  {
    if nodes != [] {
      SlugsAreOfNodes(nodes[1..], slug);
      assert Within(nodes[0], nodes);
      if nodes[0].children.Listed? {
        SlugsAreOfNodes(nodes[0].children.nodes, slug);
      }
    }
  }

  /** There is no path exactly when the slug is absent, empty, or no node's. */
  lemma {:induction false} NoPathMeansNoNode(nodes: seq<Node>, slug: Option<string>, trail: seq<string>)
    ensures PathOfActive(nodes, slug, trail) == None <==> slug.None? || slug.value == "" || slug.value !in Slugs(nodes)
    decreases nodes
  {
    if nodes != [] && slug.Some? {
      if nodes[0].children.Listed? {
        NoPathMeansNoNode(nodes[0].children.nodes, slug, trail + [nodes[0].slug]);
      }
      NoPathMeansNoNode(nodes[1..], slug, trail);
    }
  }

  /** `path` leads from a root of the forest down to a node, slug by slug. */
  ghost predicate LeadsDown(nodes: seq<Node>, path: seq<string>)
    decreases |path|
  {
    path != [] && exists n | n in nodes ::
      n.slug == path[0] && (|path| == 1 || (n.children.Listed? && LeadsDown(n.children.nodes, path[1..])))
  }

  /** A path found leads from the root to a node with the slug. */
  lemma {:induction false} PathLeadsToActive(nodes: seq<Node>, slug: Option<string>, trail: seq<string>)
    requires PathOfActive(nodes, slug, trail).Some?
    ensures var path := PathOfActive(nodes, slug, trail).value;
      trail < path && path[|path| - 1] == slug.value && LeadsDown(nodes, path[|trail|..])
    decreases nodes
  {
    var n, next := nodes[0], trail + [nodes[0].slug];
    var path := PathOfActive(nodes, slug, trail).value;
    if n.slug == slug.value {
      assert path[|trail|..] == [n.slug];
    } else if n.children.Listed? && PathOfActive(n.children.nodes, slug, next).Some? {
      PathLeadsToActive(n.children.nodes, slug, next);
      assert path[|trail|] == n.slug && path[|trail|..][1..] == path[|next|..];
    } else {
      PathLeadsToActive(nodes[1..], slug, trail);
      MoreNodesLeadDown(nodes, path[|trail|..]);
    }
  }

  lemma MoreNodesLeadDown(nodes: seq<Node>, path: seq<string>)
    requires nodes != [] && LeadsDown(nodes[1..], path)
    ensures LeadsDown(nodes, path)
  {
  }

  // ----- The search -----

  type Matcher = string -> bool

  /** What the search shows of a forest, and of one node: the node itself or nothing. */
  function Filter(m: Matcher, nodes: seq<Node>): seq<Node>
    decreases nodes
  {
    if nodes == [] then [] else FilterNode(m, nodes[0]) + Filter(m, nodes[1..])
  }

  function FilterNode(m: Matcher, n: Node): seq<Node>
    decreases n
  {
    var shown := if n.children.Listed? then Filter(m, n.children.nodes) else [];
    if m(n.name) || shown != [] then [Node(n.slug, n.name, if shown != [] then Listed(shown) else n.children)] else []
  }

  /** The matching nodes in preorder. */
  datatype Hit = Hit(slug: string, name: string)

  function Hits(m: Matcher, nodes: seq<Node>): seq<Hit>
    decreases nodes
  {
    if nodes == [] then [] else HitsOf(m, nodes[0]) + Hits(m, nodes[1..])
  }

  function HitsOf(m: Matcher, n: Node): seq<Hit>
    decreases n
  {
    (if m(n.name) then [Hit(n.slug, n.name)] else []) + (if n.children.Listed? then Hits(m, n.children.nodes) else [])
  }

  /** The hits are the nodes of the forest whose name matches. */
  lemma {:induction false} HitsAreMatches(m: Matcher, nodes: seq<Node>, hit: Hit)
    ensures hit in Hits(m, nodes) <==> exists n :: Within(n, nodes) && m(n.name) && hit == Hit(n.slug, n.name)
    decreases nodes
  {
    if nodes != [] {
      HitsAreMatches(m, nodes[1..], hit);
      assert Within(nodes[0], nodes);
      if nodes[0].children.Listed? {
        HitsAreMatches(m, nodes[0].children.nodes, hit);
      }
    }
  }

  lemma {:induction false} HitsConcat(m: Matcher, a: seq<Node>, b: seq<Node>)
    ensures Hits(m, a + b) == Hits(m, a) + Hits(m, b)
  {
    if a == [] {
      assert a + b == b;
    } else {
      assert (a + b)[0] == a[0] && (a + b)[1..] == a[1..] + b;
      HitsConcat(m, a[1..], b);
      assert HitsOf(m, a[0]) + (Hits(m, a[1..]) + Hits(m, b)) == (HitsOf(m, a[0]) + Hits(m, a[1..])) + Hits(m, b);
    }
  }

  lemma HitsSingle(m: Matcher, n: Node)
    ensures Hits(m, [n]) == HitsOf(m, n)
  {
    assert [n][1..] == [];
  }

  /** The search loses no matching node and keeps their order. */
  lemma {:induction false} FilterKeepsHits(m: Matcher, nodes: seq<Node>)
    ensures Hits(m, Filter(m, nodes)) == Hits(m, nodes)
    decreases nodes
  {
    if nodes != [] {
      FilterNodeKeepsHits(m, nodes[0]);
      FilterKeepsHits(m, nodes[1..]);
      HitsConcat(m, FilterNode(m, nodes[0]), Filter(m, nodes[1..]));
    }
  }

  lemma {:induction false} FilterNodeKeepsHits(m: Matcher, n: Node)
    ensures Hits(m, FilterNode(m, n)) == HitsOf(m, n)
    decreases n
  {
    if n.children.Listed? {
      FilterKeepsHits(m, n.children.nodes);
    }
    var out := FilterNode(m, n);
    if out != [] {
      HitsSingle(m, out[0]);
    }
  }

  /** Something is shown exactly when something matches. */
  lemma {:induction false} ShownExactlyWhenHit(m: Matcher, nodes: seq<Node>)
    ensures Filter(m, nodes) == [] <==> Hits(m, nodes) == []
    decreases nodes
  {
    if nodes != [] {
      NodeShownExactlyWhenHit(m, nodes[0]);
      ShownExactlyWhenHit(m, nodes[1..]);
    }
  }

  lemma {:induction false} NodeShownExactlyWhenHit(m: Matcher, n: Node)
    ensures FilterNode(m, n) == [] <==> HitsOf(m, n) == []
    decreases n
  {
    if n.children.Listed? {
      ShownExactlyWhenHit(m, n.children.nodes);
    }
  }

  /**
   * What the search is meant to show: a node stays when its subtree holds a match; then its children
   * are pruned alike when there is a match below, and all stay when the node alone matches.
   */
  predicate Pruned(m: Matcher, shown: seq<Node>, nodes: seq<Node>)
    decreases nodes
  {
    if nodes == [] then shown == []
    else if HitsOf(m, nodes[0]) == [] then Pruned(m, shown, nodes[1..])
    else shown != [] && PrunedNode(m, shown[0], nodes[0]) && Pruned(m, shown[1..], nodes[1..])
  }

  predicate PrunedNode(m: Matcher, shown: Node, n: Node)
    decreases n
  {
    && shown.slug == n.slug && shown.name == n.name
    && if n.children.Listed? && Hits(m, n.children.nodes) != []
       then shown.children.Listed? && Pruned(m, shown.children.nodes, n.children.nodes)
       else shown.children == n.children
  }

  /** The search shows exactly the pruned forest. */
  lemma {:induction false} FilterPrunes(m: Matcher, shown: seq<Node>, nodes: seq<Node>)
    ensures Pruned(m, shown, nodes) <==> shown == Filter(m, nodes)
    decreases nodes
  {
    if nodes != [] {
      NodeShownExactlyWhenHit(m, nodes[0]);
      if HitsOf(m, nodes[0]) == [] {
        FilterPrunes(m, shown, nodes[1..]);
      } else if shown != [] {
        FilterPrunesNode(m, shown[0], nodes[0]);
        FilterPrunes(m, shown[1..], nodes[1..]);
        HeadAndRest(shown, FilterNode(m, nodes[0])[0], Filter(m, nodes[1..]));
      }
    }
  }

  lemma HeadAndRest(s: seq<Node>, n: Node, rest: seq<Node>)
    requires s != []
    ensures s == [n] + rest <==> s[0] == n && s[1..] == rest
  {
    assert s == [s[0]] + s[1..];
  }

  lemma {:induction false} FilterPrunesNode(m: Matcher, shown: Node, n: Node)
    requires HitsOf(m, n) != []
    ensures PrunedNode(m, shown, n) <==> FilterNode(m, n) == [shown]
    decreases n
  {
    NodeShownExactlyWhenHit(m, n);
    if n.children.Listed? {
      ShownExactlyWhenHit(m, n.children.nodes);
      if shown.children.Listed? {
        FilterPrunes(m, shown.children.nodes, n.children.nodes);
      }
    }
  }

  /** Every node matches, or an ancestor or a descendant does. */
  predicate Justified(m: Matcher, nodes: seq<Node>, above: bool)
    decreases nodes
  {
    nodes == [] || (JustifiedNode(m, nodes[0], above) && Justified(m, nodes[1..], above))
  }

  predicate JustifiedNode(m: Matcher, n: Node, above: bool)
    decreases n
  {
    && (above || HitsOf(m, n) != [])
    && (n.children.Listed? ==> Justified(m, n.children.nodes, above || m(n.name)))
  }

  lemma {:induction false} BelowMatchIsJustified(m: Matcher, nodes: seq<Node>)
    ensures Justified(m, nodes, true)
    decreases nodes
  {
    if nodes != [] {
      if nodes[0].children.Listed? {
        BelowMatchIsJustified(m, nodes[0].children.nodes);
      }
      BelowMatchIsJustified(m, nodes[1..]);
    }
  }

  lemma {:induction false} FilterIsJustified(m: Matcher, nodes: seq<Node>, above: bool)
    ensures Justified(m, Filter(m, nodes), above)
    decreases nodes
  {
    if nodes != [] {
      FilterIsJustified(m, nodes[1..], above);
      var out := FilterNode(m, nodes[0]);
      if out != [] {
        FilterNodeIsJustified(m, nodes[0], above);
        assert Filter(m, nodes)[1..] == Filter(m, nodes[1..]);
      } else {
        assert Filter(m, nodes) == Filter(m, nodes[1..]);
      }
    }
  }

  lemma {:induction false} FilterNodeIsJustified(m: Matcher, n: Node, above: bool)
    requires FilterNode(m, n) != []
    ensures JustifiedNode(m, FilterNode(m, n)[0], above)
    decreases n
  {
    FilterNodeKeepsHits(m, n);
    NodeShownExactlyWhenHit(m, n);
    HitsSingle(m, FilterNode(m, n)[0]);
    if n.children.Listed? {
      FilterIsJustified(m, n.children.nodes, above || m(n.name));
      BelowMatchIsJustified(m, n.children.nodes);
    }
  }

  /** Searching again changes nothing. */
  lemma {:induction false} FilterTwice(m: Matcher, nodes: seq<Node>)
    ensures Filter(m, Filter(m, nodes)) == Filter(m, nodes)
    decreases nodes
  {
    if nodes != [] {
      FilterTwice(m, nodes[1..]);
      var out := FilterNode(m, nodes[0]);
      if out != [] {
        FilterNodeTwice(m, nodes[0]);
        assert Filter(m, nodes)[0] == out[0] && Filter(m, nodes)[1..] == Filter(m, nodes[1..]);
      } else {
        assert Filter(m, nodes) == Filter(m, nodes[1..]);
      }
    }
  }

  lemma {:induction false} FilterNodeTwice(m: Matcher, n: Node)
    requires FilterNode(m, n) != []
    ensures FilterNode(m, FilterNode(m, n)[0]) == FilterNode(m, n)
    decreases n
  {
    if n.children.Listed? {
      FilterTwice(m, n.children.nodes);
    }
  }

  lemma FilterStep(m: Matcher, out: seq<Node>, nodes: seq<Node>, i: nat, kept: seq<Node>)
    requires i < |nodes| && out + Filter(m, nodes[i..]) == Filter(m, nodes) && kept == FilterNode(m, nodes[i])
    ensures (out + kept) + Filter(m, nodes[i + 1..]) == Filter(m, nodes)
  {
    assert nodes[i..][0] == nodes[i] && nodes[i..][1..] == nodes[i + 1..];
    assert out + (kept + Filter(m, nodes[i + 1..])) == (out + kept) + Filter(m, nodes[i + 1..]);
  }

  /** The search as the code runs it. */
  method FilterNodes(m: Matcher, nodes: seq<Node>) returns (out: seq<Node>)
    ensures out == Filter(m, nodes)
    decreases nodes
  {
    out := [];
    for i := 0 to |nodes|
      invariant out + Filter(m, nodes[i..]) == Filter(m, nodes)
    {
      var n := nodes[i];
      var childMatches := [];
      if n.children.Listed? { childMatches := FilterNodes(m, n.children.nodes); }
      var kept := [];
      if m(n.name) || childMatches != [] {
        kept := [Node(n.slug, n.name, if childMatches != [] then Listed(childMatches) else n.children)];
      }
      FilterStep(m, out, nodes, i, kept);
      out := out + kept;
    }
  }

  /** An empty term shows the whole tree. */
  method Search(nodes: seq<Node>, term: string, lower: string -> string) returns (out: seq<Node>)
    ensures var m := (name: string) => Contains(lower(name), term);
      if term == "" then out == nodes
      else Pruned(m, out, nodes) && Justified(m, out, false) && Hits(m, out) == Hits(m, nodes)
  {
    if term == "" { return nodes; }
    var m := (name: string) => Contains(lower(name), term);
    out := FilterNodes(m, nodes);
    FilterPrunes(m, out, nodes);
    FilterIsJustified(m, nodes, false);
    FilterKeepsHits(m, nodes);
  }
}
