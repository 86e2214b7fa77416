/** What the end state of the category merge means for paths, products and the category tree. */
module CategoryQuotient {
  import opened JsStrings
  import opened Options
  import opened CategoryPaths
  import opened CategoryTable
  import opened CategoryMerge

  ghost function Final(s: Snapshot, nn: string -> string, order: seq<Id>): Snapshot
    requires Lists(order, s.categories)
  {
    Quotient(s, PlanOf(s.categories, nn, order))
  }

  /** The end state is consistent. */
  lemma FinalConsistent(s: Snapshot, nn: string -> string, order: seq<Id>)
    requires Ready(s, nn, order)
    ensures Consistent(Final(s, nn, order))
  {
    var plan := PlanOf(s.categories, nn, order);
    PlanIsGood(s, nn, order);
    var g := Progress(Duplicates(plan), Duplicates(plan), Duplicates(plan), Keepers(plan), Keepers(plan));
    StageConsistent(s, plan, g);
    LastStageIsQuotient(s, plan, g);
  }

  /** Some row of the tenant has the path. */
  ghost predicate HasPath(s: Snapshot, tenant: string, path: string) {
    exists c | c in s.categories :: s.categories[c].tenant == tenant && s.categories[c].path == path
  }

  /** Some row of the tenant has a path that normalises to `path`. */
  ghost predicate NormalizesTo(s: Snapshot, nn: string -> string, tenant: string, path: string) {
    exists c | c in s.categories ::
      s.categories[c].tenant == tenant && NormalizePath(nn, s.categories[c].path) == path
  }

  /** A tenant's final paths are exactly the normalised paths of its original rows. */
  lemma FinalPaths(s: Snapshot, nn: string -> string, order: seq<Id>, tenant: string, path: string)
    requires Ready(s, nn, order)
    ensures HasPath(Final(s, nn, order), tenant, path) <==> NormalizesTo(s, nn, tenant, path)
  {
    var cats, plan, q := s.categories, PlanOf(s.categories, nn, order), Final(s, nn, order);
    PlanIsGood(s, nn, order);
    forall c | c in cats && cats[c].tenant == tenant && NormalizePath(nn, cats[c].path) == path
      ensures HasPath(q, tenant, path)
    {
      var k := plan.keeper[c];
      assert KeeperSound(s, plan, c) && GroupSound(s, plan, c, k);
      assert k in q.categories && q.categories[k].tenant == tenant && q.categories[k].path == path;
    }
  }

  /** `to` is where a reference to `from` has to end up: a live row with `from`'s normalised path. */
  ghost predicate Represents(s: Snapshot, nn: string -> string, q: Snapshot, from: Id, to: Id)
    requires from in s.categories
  {
    && to in q.categories
    && q.categories[to].tenant == s.categories[from].tenant
    && q.categories[to].path == NormalizePath(nn, s.categories[from].path)
  }

  lemma KeeperRepresents(s: Snapshot, nn: string -> string, order: seq<Id>, from: Id)
    requires Ready(s, nn, order) && from in s.categories
    ensures Represents(s, nn, Final(s, nn, order), from, PlanOf(s.categories, nn, order).keeper[from])
  {
    var plan := PlanOf(s.categories, nn, order);
    PlanIsGood(s, nn, order);
    assert KeeperSound(s, plan, from) && GroupSound(s, plan, from, plan.keeper[from]);
  }

  /** No product loses its category: it ends in the row carrying the normalised path of its old one. */
  lemma ProductsFollowTheirCategory(s: Snapshot, nn: string -> string, order: seq<Id>, p: Id)
    requires Ready(s, nn, order) && p in s.products
    ensures var q := Final(s, nn, order);
      && q.products.Keys == s.products.Keys
      && (s.products[p] == None ==> q.products[p] == None)
      && (s.products[p].Some? ==> q.products[p].Some? && s.products[p].value in s.categories &&
                                  Represents(s, nn, q, s.products[p].value, q.products[p].value))
  {
    if s.products[p].Some? {
      assert Live(s, s.products[p]);
      KeeperRepresents(s, nn, order, s.products[p].value);
    }
  }

  /** A survivor's parent is the row carrying the normalised path of its old parent. */
  lemma ChildrenFollowTheirParent(s: Snapshot, nn: string -> string, order: seq<Id>, c: Id)
    requires Ready(s, nn, order) && c in s.categories
    ensures var q := Final(s, nn, order);
      c in q.categories ==>
      && (s.categories[c].parent == None ==> q.categories[c].parent == None)
      && (s.categories[c].parent.Some? ==>
            && q.categories[c].parent.Some? && s.categories[c].parent.value in s.categories
            && Represents(s, nn, q, s.categories[c].parent.value, q.categories[c].parent.value))
  {
    if s.categories[c].parent.Some? {
      assert Live(s, s.categories[c].parent);
      KeeperRepresents(s, nn, order, s.categories[c].parent.value);
    }
  }

  // ----- The category tree -----

  /** The ancestor `k` steps above `id`. */
  ghost function Ancestor(s: Snapshot, id: Id, k: nat): Option<Id> {
    if k == 0 then Some(id)
    else
      var below := Ancestor(s, id, k - 1);
      if below.Some? && below.value in s.categories then s.categories[below.value].parent else None
  }

  ghost predicate Acyclic(s: Snapshot) {
    forall id, k: nat | id in s.categories && k > 0 :: Ancestor(s, id, k) != Some(id)
  }

  /** `child` is `parent` with one more segment. */
  ghost predicate Extends(parent: string, child: string) {
    exists segment :: child == parent + " > " + segment
  }

  ghost predicate PathsExtend(s: Snapshot, nn: string -> string) {
    forall c | c in s.categories && s.categories[c].parent.Some? && s.categories[c].parent.value in s.categories ::
      Extends(NormalizePath(nn, s.categories[s.categories[c].parent.value].path),
              NormalizePath(nn, s.categories[c].path))
  }

  /** Every parent has a shorter path than its child. */
  ghost predicate ParentsShorter(s: Snapshot) {
    forall c | c in s.categories && s.categories[c].parent.Some? && s.categories[c].parent.value in s.categories ::
      |s.categories[s.categories[c].parent.value].path| < |s.categories[c].path|
  }

  lemma {:induction false} AncestorsShorten(s: Snapshot, id: Id, k: nat)
    requires NoDangling(s) && id in s.categories
    requires ParentsShorter(s)
    ensures var a := Ancestor(s, id, k);
      a.Some? ==> a.value in s.categories && |s.categories[a.value].path| + k <= |s.categories[id].path|
  {
    if k > 0 {
      AncestorsShorten(s, id, k - 1);
      var below := Ancestor(s, id, k - 1);
      if below.Some? {
        assert Live(s, s.categories[below.value].parent);
      }
    }
  }

  lemma AcyclicByLength(s: Snapshot)
    requires NoDangling(s)
    requires ParentsShorter(s)
    ensures Acyclic(s)
  {
    forall id, k: nat | id in s.categories && k > 0 ensures Ancestor(s, id, k) != Some(id) {
      AncestorsShorten(s, id, k);
    }
  }

  /** When every child's normalised path extends its parent's, merging creates no cycle. */
  lemma MergeKeepsTreeAcyclic(s: Snapshot, nn: string -> string, order: seq<Id>)
    requires Ready(s, nn, order) && PathsExtend(s, nn)
    ensures Acyclic(Final(s, nn, order))
  {
    var q := Final(s, nn, order);
    FinalConsistent(s, nn, order);
    forall c | c in q.categories && q.categories[c].parent.Some?
      ensures q.categories[c].parent.value in q.categories
      ensures |q.categories[q.categories[c].parent.value].path| < |q.categories[c].path|
    {
      assert Live(q, q.categories[c].parent);
      ChildrenFollowTheirParent(s, nn, order, c);
    }
    AcyclicByLength(q);
  }

  /** Two rows of one tenant have the same normalised path. */
  ghost predicate SameGroup(nn: string -> string, a: Category, b: Category) {
    a.tenant == b.tenant && NormalizePath(nn, a.path) == NormalizePath(nn, b.path)
  }

  /** The old parent of survivor `c` normalises to survivor `d`'s path. */
  ghost predicate ParentGoesTo(s: Snapshot, nn: string -> string, c: Id, d: Id) {
    && c in s.categories && d in s.categories
    && s.categories[c].parent.Some? && s.categories[c].parent.value in s.categories
    && SameGroup(nn, s.categories[s.categories[c].parent.value], s.categories[d])
  }

  /** A survivor's parent is another exactly when its old parent normalises to the other's path. */
  lemma ParentExactly(s: Snapshot, nn: string -> string, order: seq<Id>, c: Id, d: Id)
    requires Ready(s, nn, order)
    ensures var q := Final(s, nn, order);
      c in q.categories && d in q.categories ==> (q.categories[c].parent == Some(d) <==> ParentGoesTo(s, nn, c, d))
  {
    var plan := PlanOf(s.categories, nn, order);
    PlanIsGood(s, nn, order);
    if c in s.categories && d in s.categories && s.categories[c].parent.Some? {
      assert Live(s, s.categories[c].parent);
      assert GroupSound(s, plan, s.categories[c].parent.value, d);
    }
  }

  /** A survivor becomes its own parent exactly when its old parent normalises to its own path. */
  lemma SelfParentWhenMergedWithParent(s: Snapshot, nn: string -> string, order: seq<Id>, c: Id)
    requires Ready(s, nn, order) && c in s.categories
    ensures Live(s, s.categories[c].parent)
    ensures var q, parent := Final(s, nn, order), s.categories[c].parent;
      c in q.categories ==>
        (q.categories[c].parent == Some(c) <==>
         parent.Some? && s.categories[parent.value].tenant == s.categories[c].tenant &&
         NormalizePath(nn, s.categories[parent.value].path) == NormalizePath(nn, s.categories[c].path))
  {
    assert Live(s, s.categories[c].parent);
    ParentExactly(s, nn, order, c, c);
  }

  /** A closed walk in which every row is followed by its parent. */
  ghost predicate ParentCycle(q: Snapshot, walk: seq<Id>) {
    && |walk| >= 2 && walk[0] == walk[|walk| - 1]
    && (forall i | 0 <= i < |walk| :: walk[i] in q.categories)
    && (forall i | 0 <= i < |walk| - 1 :: q.categories[walk[i]].parent == Some(walk[i + 1]))
  }

  lemma {:induction false} WalkIsAncestry(q: Snapshot, walk: seq<Id>, k: nat)
    requires ParentCycle(q, walk) && k < |walk|
    ensures Ancestor(q, walk[0], k) == Some(walk[k])
  {
    if k > 0 {
      WalkIsAncestry(q, walk, k - 1);
    }
  }

  lemma {:induction false} AncestorsStop(q: Snapshot, id: Id, i: nat, k: nat)
    requires i <= k
    ensures Ancestor(q, id, i) == None ==> Ancestor(q, id, k) == None
  {
    if i < k {
      AncestorsStop(q, id, i, k - 1);
    }
  }

  lemma {:induction false} AncestorsLive(q: Snapshot, id: Id, k: nat, i: nat)
    requires NoDangling(q) && id in q.categories && i <= k && Ancestor(q, id, k).Some?
    ensures Ancestor(q, id, i).Some? && Ancestor(q, id, i).value in q.categories
  {
    AncestorsStop(q, id, i, k);
    if i > 0 {
      AncestorsLive(q, id, k, i - 1);
      assert Live(q, q.categories[Ancestor(q, id, i - 1).value].parent);
    }
  }

  lemma AncestryIsWalk(q: Snapshot, id: Id, k: nat) returns (walk: seq<Id>)
    requires NoDangling(q) && id in q.categories && k > 0 && Ancestor(q, id, k) == Some(id)
    ensures ParentCycle(q, walk)
  {
    forall i: nat | i <= k ensures Ancestor(q, id, i).Some? && Ancestor(q, id, i).value in q.categories {
      AncestorsLive(q, id, k, i);
    }
    walk := seq(k + 1, i requires 0 <= i <= k => Ancestor(q, id, i).value);
    forall i | 0 <= i < k ensures q.categories[walk[i]].parent == Some(walk[i + 1]) {
      assert Ancestor(q, id, i + 1) == q.categories[walk[i]].parent;
    }
  }

  lemma AcyclicMeansNoCycle(q: Snapshot)
    requires NoDangling(q)
    ensures Acyclic(q) <==> !exists walk :: ParentCycle(q, walk)
  {
    if walk :| ParentCycle(q, walk) {
      WalkIsAncestry(q, walk, |walk| - 1);
    }
    if !Acyclic(q) {
      var id, k: nat :| id in q.categories && k > 0 && Ancestor(q, id, k) == Some(id);
      var walk := AncestryIsWalk(q, id, k);
    }
  }

  /** A closed walk over survivors, each of whose old parents normalises to the next one's path. */
  ghost predicate MergedCycle(s: Snapshot, nn: string -> string, survivors: set<Id>, walk: seq<Id>) {
    && |walk| >= 2 && walk[0] == walk[|walk| - 1]
    && (forall i | 0 <= i < |walk| :: walk[i] in survivors)
    && (forall i | 0 <= i < |walk| - 1 :: ParentGoesTo(s, nn, walk[i], walk[i + 1]))
  }

  ghost predicate ParentAgrees(s: Snapshot, nn: string -> string, q: Snapshot, c: Id, d: Id) {
    c in q.categories && d in q.categories ==> (q.categories[c].parent == Some(d) <==> ParentGoesTo(s, nn, c, d))
  }

  ghost predicate ParentsAgree(s: Snapshot, nn: string -> string, q: Snapshot) {
    forall c, d {:trigger ParentAgrees(s, nn, q, c, d)} :: ParentAgrees(s, nn, q, c, d)
  }

  lemma FinalParentsAgree(s: Snapshot, nn: string -> string, order: seq<Id>)
    requires Ready(s, nn, order)
    ensures ParentsAgree(s, nn, Final(s, nn, order))
  {
    forall c, d ensures ParentAgrees(s, nn, Final(s, nn, order), c, d) {
      ParentExactly(s, nn, order, c, d);
    }
  }

  lemma CyclesAreMerged(s: Snapshot, nn: string -> string, q: Snapshot, walk: seq<Id>)
    requires ParentsAgree(s, nn, q)
    ensures ParentCycle(q, walk) <==> MergedCycle(s, nn, q.categories.Keys, walk)
  {
    forall i | 0 <= i < |walk| - 1 ensures ParentAgrees(s, nn, q, walk[i], walk[i + 1]) {
    }
  }

  lemma AcyclicMeansNoMergedCycle(s: Snapshot, nn: string -> string, q: Snapshot)
    requires NoDangling(q) && ParentsAgree(s, nn, q)
    ensures Acyclic(q) <==> !exists walk :: MergedCycle(s, nn, q.categories.Keys, walk)
  {
    AcyclicMeansNoCycle(q);
    forall walk ensures ParentCycle(q, walk) <==> MergedCycle(s, nn, q.categories.Keys, walk) {
      CyclesAreMerged(s, nn, q, walk);
    }
  }

  /** `c` is the first row of the listing with its tenant and normalised path. */
  ghost predicate FirstOfGroup(cats: map<Id, Category>, nn: string -> string, order: seq<Id>, c: Id) {
    exists i :: FirstAt(cats, nn, order, c, i)
  }

  ghost predicate FirstAt(cats: map<Id, Category>, nn: string -> string, order: seq<Id>, c: Id, i: int) {
    && 0 <= i < |order| && order[i] == c && c in cats
    && forall j | 0 <= j < i :: order[j] in cats && !SameGroup(nn, cats[order[j]], cats[c])
  }

  ghost function Survivors(cats: map<Id, Category>, nn: string -> string, order: seq<Id>): set<Id> {
    set c | c in cats && FirstOfGroup(cats, nn, order, c)
  }

  /** The head of a bucket is where its key first occurs. */
  lemma {:induction false} BucketHead(cats: map<Id, Category>, nn: string -> string, order: seq<Id>, key: string)
    returns (i: nat)
    requires (forall id | id in order :: id in cats) && Bucket(cats, nn, order, key) != []
    ensures i < |order| && order[i] == Bucket(cats, nn, order, key)[0]
    ensures forall j | 0 <= j < i :: KeyOf(nn, cats[order[j]]) != key
  {
    var front, last := order[..|order| - 1], order[|order| - 1];
    if Bucket(cats, nn, front, key) != [] {
      i := BucketHead(cats, nn, front, key);
    } else {
      i := |order| - 1;
      BucketMembers(cats, nn, front, key);
      forall j | 0 <= j < i ensures KeyOf(nn, cats[order[j]]) != key {
        assert order[j] in front;
      }
    }
  }

  lemma KeyMeansGroup(cats: map<Id, Category>, nn: string -> string, a: Id, b: Id)
    requires CleanKeys(cats, nn) && a in cats && b in cats
    ensures KeyOf(nn, cats[a]) == KeyOf(nn, cats[b]) <==> SameGroup(nn, cats[a], cats[b])
  {
    assert CleanKey(cats, nn, a) && CleanKey(cats, nn, b);
    GroupKeyInjective(cats[a].tenant, NormalizePath(nn, cats[a].path), cats[b].tenant, NormalizePath(nn, cats[b].path));
  }

  lemma KeeperIsFirst(cats: map<Id, Category>, nn: string -> string, order: seq<Id>, c: Id)
    requires Lists(order, cats) && CleanKeys(cats, nn) && c in cats
    ensures KeeperOf(cats, nn, order, c) == c <==> FirstOfGroup(cats, nn, order, c)
  {
    var key := KeyOf(nn, cats[c]);
    BucketMembers(cats, nn, order, key);
    assert c in Bucket(cats, nn, order, key);
    var i := BucketHead(cats, nn, order, key);
    forall j | 0 <= j < |order|
      ensures order[j] in cats && (KeyOf(nn, cats[order[j]]) == key <==> SameGroup(nn, cats[order[j]], cats[c]))
    {
      assert order[j] in order;
      KeyMeansGroup(cats, nn, order[j], c);
    }
    assert order[i] in Bucket(cats, nn, order, key);
    if KeeperOf(cats, nn, order, c) == c {
      assert FirstAt(cats, nn, order, c, i);
    }
    if k :| FirstAt(cats, nn, order, c, k) {
      assert i >= k;
    }
  }

  lemma SurvivorsAreFirst(s: Snapshot, nn: string -> string, order: seq<Id>)
    requires Ready(s, nn, order)
    ensures Final(s, nn, order).categories.Keys == Survivors(s.categories, nn, order)
  {
    forall c | c in s.categories
      ensures KeeperOf(s.categories, nn, order, c) == c <==> FirstOfGroup(s.categories, nn, order, c)
    {
      KeeperIsFirst(s.categories, nn, order, c);
    }
  }

  /**
   * The final tree has no cycle exactly when no walk closes over rows that are the first of their group
   * in the listing, each of whose old parents normalises to the next one's path.
   */
  lemma AcyclicExactly(s: Snapshot, nn: string -> string, order: seq<Id>)
    requires Ready(s, nn, order)
    ensures Acyclic(Final(s, nn, order)) <==>
      !exists walk :: MergedCycle(s, nn, Survivors(s.categories, nn, order), walk)
  {
    FinalConsistent(s, nn, order);
    FinalParentsAgree(s, nn, order);
    SurvivorsAreFirst(s, nn, order);
    AcyclicMeansNoMergedCycle(s, nn, Final(s, nn, order));
  }

  /** A category `1` filed below category `2`. */
  function TwoCategories(): Snapshot {
    Snapshot(map[Id("1") := Category("t", "a", "a", Some(Id("2"))), Id("2") := Category("t", "b", "b", None)], map[])
  }

  lemma TwoCategoriesReady(nn: string -> string)
    requires nn("a") == "C" && nn("b") == "C"
    ensures Ready(TwoCategories(), nn, [Id("1"), Id("2")])
  {
    OneSegmentPath(nn, "a");
    OneSegmentPath(nn, "b");
    assert |TempPath(Id("1"))| == |TempPath(Id("2"))| == 8;
  }

  /** A survivor can become its own parent: a category filed below another spelling of its own name. */
  lemma SelfParentHappens(nn: string -> string)
    requires nn("a") == "C" && nn("b") == "C"
    ensures var s, order := TwoCategories(), [Id("1"), Id("2")];
      && Ready(s, nn, order) && Id("1") in Final(s, nn, order).categories
      && Final(s, nn, order).categories[Id("1")].parent == Some(Id("1"))
  {
    var s := TwoCategories();
    TwoCategoriesReady(nn);
    OneSegmentPath(nn, "a");
    OneSegmentPath(nn, "b");
    FirstOfTwoKeeps(s.categories, nn, Id("1"), Id("2"));
    SelfParentWhenMergedWithParent(s, nn, [Id("1"), Id("2")], Id("1"));
  }

  lemma FirstOfTwoKeeps(cats: map<Id, Category>, nn: string -> string, a: Id, b: Id)
    requires a != b && cats.Keys == {a, b} && KeyOf(nn, cats[a]) == KeyOf(nn, cats[b])
    ensures Lists([a, b], cats) && PlanOf(cats, nn, [a, b]).keeper[a] == a
  {
    var key := KeyOf(nn, cats[a]);
    assert [a, b][..1] == [a] && [a][..0] == [];
    assert Bucket(cats, nn, [a], key) == [a];
    assert Bucket(cats, nn, [a, b], key) == [a] + [b];
  }

  /** Normal paths that are unique per tenant leave every row alone in its group. */
  lemma AloneInGroup(q: Snapshot, nn: string -> string, order: seq<Id>, c: Id)
    requires Consistent(q) && Lists(order, q.categories) && CleanKeys(q.categories, nn) && c in q.categories
    requires forall c | c in q.categories :: NormalizePath(nn, q.categories[c].path) == q.categories[c].path
    ensures PlanOf(q.categories, nn, order).keeper[c] == c
  {
    var k := PlanOf(q.categories, nn, order).keeper[c];
    KeeperInGroup(q.categories, nn, order, c);
    assert CleanKey(q.categories, nn, c) && CleanKey(q.categories, nn, k);
    GroupKeyInjective(q.categories[c].tenant, q.categories[c].path, q.categories[k].tenant, q.categories[k].path);
    assert k != c ==> PathsDiffer(q, k, c);
  }

  lemma IdentityPlan(q: Snapshot, plan: Plan)
    requires NoDangling(q) && plan.keeper.Keys == plan.name.Keys == plan.path.Keys == q.categories.Keys
    requires forall c | c in q.categories ::
               plan.keeper[c] == c && plan.name[c] == q.categories[c].name && plan.path[c] == q.categories[c].path
    ensures Quotient(q, plan) == q
  {
    var r := Quotient(q, plan);
    forall c | c in q.categories ensures r.categories[c] == q.categories[c] {
      assert Live(q, q.categories[c].parent);
    }
    assert r.categories == q.categories;
    assert r.products == q.products;
  }

  ghost predicate AllNormal(q: Snapshot, nn: string -> string) {
    forall c | c in q.categories :: NormalizePath(nn, q.categories[c].path) == q.categories[c].path
  }

  /** No original path changes further when it is normalised a second time. */
  ghost predicate NormalizesOnce(s: Snapshot, nn: string -> string) {
    forall c | c in s.categories ::
      NormalizePath(nn, NormalizePath(nn, s.categories[c].path)) == NormalizePath(nn, s.categories[c].path)
  }

  lemma AllNormalOnInput(s: Snapshot, nn: string -> string, order: seq<Id>)
    requires Ready(s, nn, order)
    ensures AllNormal(Final(s, nn, order), nn) <==> NormalizesOnce(s, nn)
  {
    if AllNormal(Final(s, nn, order), nn) {
      forall c | c in s.categories
        ensures NormalizePath(nn, NormalizePath(nn, s.categories[c].path)) == NormalizePath(nn, s.categories[c].path)
      {
        KeeperRepresents(s, nn, order, c);
      }
    }
  }

  /** A second run changes nothing exactly when no original path changes further when normalised twice. */
  lemma SecondRunChangesNothingExactly(s: Snapshot, nn: string -> string, order: seq<Id>, order': seq<Id>)
    requires Ready(s, nn, order)
    requires Lists(order', Final(s, nn, order).categories) && CleanKeys(Final(s, nn, order).categories, nn)
    ensures Final(Final(s, nn, order), nn, order') == Final(s, nn, order) <==> NormalizesOnce(s, nn)
  {
    AllNormalOnInput(s, nn, order);
    if AllNormal(Final(s, nn, order), nn) {
      SecondRunChangesNothing(s, nn, order, order');
    } else {
      UnchangedMeansNormal(Final(s, nn, order), nn, order');
    }
  }

  lemma UnchangedMeansNormal(q: Snapshot, nn: string -> string, order: seq<Id>)
    requires Lists(order, q.categories) && !AllNormal(q, nn)
    ensures Final(q, nn, order) != q
  {
    var c :| c in q.categories && NormalizePath(nn, q.categories[c].path) != q.categories[c].path;
    assert c in Final(q, nn, order).categories ==>
      Final(q, nn, order).categories[c].path == NormalizePath(nn, q.categories[c].path);
  }

  /** A second run over tables whose paths are already normal changes nothing. */
  lemma SecondRunChangesNothing(s: Snapshot, nn: string -> string, order: seq<Id>, order': seq<Id>)
    requires Ready(s, nn, order)
    requires var q := Final(s, nn, order);
      Lists(order', q.categories) && CleanKeys(q.categories, nn) && AllNormal(q, nn)
    ensures Final(Final(s, nn, order), nn, order') == Final(s, nn, order)
  {
    var q := Final(s, nn, order);
    FinalConsistent(s, nn, order);
    forall c | c in q.categories
      ensures PlanOf(q.categories, nn, order').keeper[c] == c
      ensures q.categories[c].name == LastSegment(q.categories[c].path)
    {
      AloneInGroup(q, nn, order', c);
    }
    IdentityPlan(q, PlanOf(q.categories, nn, order'));
  }
}
