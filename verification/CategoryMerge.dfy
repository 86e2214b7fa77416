/**
 * The category merge script: groups categories by (tenant, normalised path), merges every group
 * into its first row, and moves the survivors to their normalised paths through temporary ones.
 */
module CategoryMerge {
  import opened CategoryPaths
  import opened CategoryTable
  import opened JsStrings
  import opened Options
  import opened Sequences

  /** Where each category goes: its group's first row, and that group's name and path. */
  datatype Plan = Plan(keeper: map<Id, Id>, name: map<Id, string>, path: map<Id, string>)

  /** Which rows each kind of write has reached so far. */
  datatype Progress = Progress(moved: set<Id>, reparented: set<Id>, dead: set<Id>,
                               stamped: set<Id>, finished: set<Id>)

  datatype Summary = Summary(total: nat, updated: nat, merged: nat, skipped: nat)

  function TempPath(id: Id): string {
    "__tmp__" + id.text
  }

  // ----- Grouping -----

  function KeyOf(nn: string -> string, c: Category): string {
    GroupKey(c.tenant, NormalizePath(nn, c.path))
  }

  ghost predicate Lists(order: seq<Id>, cats: map<Id, Category>) {
    Distinct(order) && forall id :: id in order <==> id in cats
  }

  /** The rows of `order` with key `key`, in order. */
  ghost function Bucket(cats: map<Id, Category>, nn: string -> string, order: seq<Id>, key: string): seq<Id>
    requires forall id | id in order :: id in cats
  {
    if order == [] then []
    else
      var front, last := order[..|order| - 1], order[|order| - 1];
      Bucket(cats, nn, front, key) + if KeyOf(nn, cats[last]) == key then [last] else []
  }

  lemma {:induction false} BucketMembers(cats: map<Id, Category>, nn: string -> string, order: seq<Id>, key: string)
    requires forall id | id in order :: id in cats
    ensures forall id :: id in Bucket(cats, nn, order, key) <==> id in order && KeyOf(nn, cats[id]) == key
    ensures Distinct(order) ==> Distinct(Bucket(cats, nn, order, key))
  {
    if order != [] {
      var front, last := order[..|order| - 1], order[|order| - 1];
      assert order == front + [last];
      BucketMembers(cats, nn, front, key);
      assert Distinct(order) ==> last !in front && Distinct(front);
    }
  }

  /** The keeper of a category: the first row of `order` in its group. */
  ghost function KeeperOf(cats: map<Id, Category>, nn: string -> string, order: seq<Id>, id: Id): Id
    requires Lists(order, cats) && id in cats
  {
    BucketMembers(cats, nn, order, KeyOf(nn, cats[id]));
    assert id in Bucket(cats, nn, order, KeyOf(nn, cats[id]));
    Bucket(cats, nn, order, KeyOf(nn, cats[id]))[0]
  }

  lemma KeeperInGroup(cats: map<Id, Category>, nn: string -> string, order: seq<Id>, id: Id)
    requires Lists(order, cats) && id in cats
    ensures var keeper := KeeperOf(cats, nn, order, id);
      keeper in cats && KeyOf(nn, cats[keeper]) == KeyOf(nn, cats[id])
  {
    var bucket := Bucket(cats, nn, order, KeyOf(nn, cats[id]));
    BucketMembers(cats, nn, order, KeyOf(nn, cats[id]));
    assert id in bucket;
    assert bucket[0] in bucket;
  }

  ghost function PlanOf(cats: map<Id, Category>, nn: string -> string, order: seq<Id>): Plan
    requires Lists(order, cats)
  {
    Plan(map id | id in cats :: KeeperOf(cats, nn, order, id),
         map id | id in cats :: LastSegment(NormalizePath(nn, cats[id].path)),
         map id | id in cats :: NormalizePath(nn, cats[id].path))
  }

  /** `plan` says about `id` what `PlanOf` does. */
  ghost predicate FitsRow(cats: map<Id, Category>, nn: string -> string, order: seq<Id>, plan: Plan, id: Id)
    requires Lists(order, cats) && id in cats
    requires plan.keeper.Keys == plan.name.Keys == plan.path.Keys == cats.Keys
  {
    && plan.keeper[id] == KeeperOf(cats, nn, order, id)
    && plan.name[id] == LastSegment(NormalizePath(nn, cats[id].path))
    && plan.path[id] == NormalizePath(nn, cats[id].path)
  }

  ghost predicate Fits(cats: map<Id, Category>, nn: string -> string, order: seq<Id>, plan: Plan) {
    && Lists(order, cats)
    && plan.keeper.Keys == plan.name.Keys == plan.path.Keys == cats.Keys
    && forall id {:trigger FitsRow(cats, nn, order, plan, id)} | id in cats :: FitsRow(cats, nn, order, plan, id)
  }

  lemma PlanFits(cats: map<Id, Category>, nn: string -> string, order: seq<Id>)
    requires Lists(order, cats)
    ensures Fits(cats, nn, order, PlanOf(cats, nn, order))
  {
    var plan := PlanOf(cats, nn, order);
    assert plan.keeper.Keys == cats.Keys;
    forall id | id in cats ensures FitsRow(cats, nn, order, plan, id) {
    }
  }

  /** No `::` where the script would split a row's key. */
  ghost predicate CleanKey(cats: map<Id, Category>, nn: string -> string, id: Id)
    requires id in cats
  {
    CleanTenant(cats[id].tenant) && !Contains(NormalizePath(nn, cats[id].path), KEY_SEPARATOR)
  }

  ghost predicate CleanKeys(cats: map<Id, Category>, nn: string -> string) {
    forall id {:trigger CleanKey(cats, nn, id)} | id in cats :: CleanKey(cats, nn, id)
  }

  /** Row `a`'s path, before or after normalising, is not the temporary path of row `b`. */
  ghost predicate NoTempPath(cats: map<Id, Category>, nn: string -> string, a: Id, b: Id)
    requires a in cats
  {
    cats[a].path != TempPath(b) && NormalizePath(nn, cats[a].path) != TempPath(b)
  }

  ghost predicate NoTempPaths(cats: map<Id, Category>, nn: string -> string) {
    forall a, b {:trigger NoTempPath(cats, nn, a, b)} | a in cats && b in cats :: NoTempPath(cats, nn, a, b)
  }

  /** What a run is assumed to start from; `order` is the order in which the rows are listed. */
  ghost predicate Ready(s: Snapshot, nn: string -> string, order: seq<Id>) {
    && Consistent(s)
    && Lists(order, s.categories)
    && CleanKeys(s.categories, nn)
    && NoTempPaths(s.categories, nn)
  }

  // ----- The states of a run -----

  ghost function Keepers(plan: Plan): set<Id> {
    set id | id in plan.keeper && plan.keeper[id] == id
  }

  ghost function Duplicates(plan: Plan): set<Id> {
    set id | id in plan.keeper && plan.keeper[id] != id
  }

  /** `a`'s keeper is a row of the same tenant, and its own keeper. */
  ghost predicate KeeperSound(s: Snapshot, plan: Plan, a: Id)
    requires plan.keeper.Keys == s.categories.Keys && a in plan.keeper
  {
    && plan.keeper[a] in plan.keeper
    && plan.keeper[plan.keeper[a]] == plan.keeper[a]
    && s.categories[plan.keeper[a]].tenant == s.categories[a].tenant
  }

  /** Two rows share their keeper exactly when they share tenant and normalised path. */
  ghost predicate GroupSound(s: Snapshot, plan: Plan, a: Id, b: Id)
    requires plan.keeper.Keys == plan.path.Keys == s.categories.Keys && a in plan.keeper && b in plan.keeper
  {
    plan.keeper[a] == plan.keeper[b] <==>
    s.categories[a].tenant == s.categories[b].tenant && plan.path[a] == plan.path[b]
  }

  ghost predicate TempFree(s: Snapshot, plan: Plan, a: Id, b: Id)
    requires plan.path.Keys == s.categories.Keys && a in plan.path
  {
    s.categories[a].path != TempPath(b) && plan.path[a] != TempPath(b)
  }

  ghost predicate GoodPlan(s: Snapshot, plan: Plan) {
    && Consistent(s)
    && plan.keeper.Keys == plan.name.Keys == plan.path.Keys == s.categories.Keys
    && (forall a {:trigger KeeperSound(s, plan, a)} | a in plan.keeper :: KeeperSound(s, plan, a))
    && (forall a, b {:trigger GroupSound(s, plan, a, b)} | a in plan.keeper && b in plan.keeper ::
          GroupSound(s, plan, a, b))
    && (forall a, b {:trigger TempFree(s, plan, a, b)} | a in plan.keeper && b in plan.keeper ::
          TempFree(s, plan, a, b))
  }

  ghost predicate InProgress(s: Snapshot, plan: Plan, g: Progress)
    requires GoodPlan(s, plan)
  {
    && g.dead <= g.reparented <= g.moved <= Duplicates(plan)
    && g.finished <= g.stamped <= Keepers(plan)
    && (g.finished != {} ==>
          && g.dead == Duplicates(plan)
          && forall k | k in Keepers(plan) :: k in g.stamped || s.categories[k].path == plan.path[k])
  }

  /** Follows a reference to its keeper once its target has been reached. */
  ghost function Follow(plan: Plan, reached: set<Id>, ref: Option<Id>): Option<Id> {
    if ref.Some? && ref.value in reached && ref.value in plan.keeper then Some(plan.keeper[ref.value]) else ref
  }

  ghost function StagedCategory(plan: Plan, g: Progress, id: Id, c: Category): Category
    requires id in plan.name && id in plan.path
  {
    Category(c.tenant,
             if id in g.finished then plan.name[id] else c.name,
             if id in g.finished then plan.path[id] else if id in g.stamped then TempPath(id) else c.path,
             Follow(plan, g.reparented, c.parent))
  }

  /** The database after the writes of `g`, computed from the state the run started in. */
  ghost function Stage(s: Snapshot, plan: Plan, g: Progress): Snapshot
    requires GoodPlan(s, plan)
  {
    Snapshot(map id | id in s.categories && id !in g.dead :: StagedCategory(plan, g, id, s.categories[id]),
             map p | p in s.products :: Follow(plan, g.moved, s.products[p]))
  }

  lemma FollowStaysLive(s: Snapshot, plan: Plan, g: Progress, reached: set<Id>, ref: Option<Id>)
    requires GoodPlan(s, plan) && InProgress(s, plan, g)
    requires g.dead <= reached <= Duplicates(plan) && Live(s, ref)
    ensures Live(Stage(s, plan, g), Follow(plan, reached, ref))
  {
    if ref.Some? {
      assert KeeperSound(s, plan, ref.value);
    }
  }

  lemma FollowStep(s: Snapshot, plan: Plan, reached: set<Id>, ref: Option<Id>, d: Id)
    requires GoodPlan(s, plan) && d in Duplicates(plan) && d !in reached
    ensures Redirect(Follow(plan, reached, ref), d, Some(plan.keeper[d])) == Follow(plan, reached + {d}, ref)
  {
    if ref.Some? && ref.value in plan.keeper {
      assert KeeperSound(s, plan, ref.value);
    }
  }

  /** A reference that has been followed never points at a duplicate again. */
  lemma FollowAvoids(s: Snapshot, plan: Plan, reached: set<Id>, ref: Option<Id>, d: Id)
    requires GoodPlan(s, plan) && d in Duplicates(plan) && d in reached
    ensures Follow(plan, reached, ref) != Some(d)
  {
    if ref.Some? && ref.value in plan.keeper {
      assert KeeperSound(s, plan, ref.value);
    }
  }

  /** At every point of a run, paths are unique within a tenant and no reference dangles. */
  lemma StageConsistent(s: Snapshot, plan: Plan, g: Progress)
    requires GoodPlan(s, plan) && InProgress(s, plan, g)
    ensures Consistent(Stage(s, plan, g))
  {
    var t := Stage(s, plan, g);
    forall a, b | a in t.categories && b in t.categories && a != b ensures PathsDiffer(t, a, b) {
      if s.categories[a].tenant == s.categories[b].tenant {
        StagePathsDiffer(s, plan, g, a, b);
      }
    }
    forall c | c in t.categories ensures Live(t, t.categories[c].parent) {
      FollowStaysLive(s, plan, g, g.reparented, s.categories[c].parent);
    }
    forall p | p in t.products ensures Live(t, t.products[p]) {
      FollowStaysLive(s, plan, g, g.moved, s.products[p]);
    }
  }

  lemma StagePathsDiffer(s: Snapshot, plan: Plan, g: Progress, a: Id, b: Id)
    requires GoodPlan(s, plan) && InProgress(s, plan, g)
    requires a in s.categories && b in s.categories && a != b && a !in g.dead && b !in g.dead
    requires s.categories[a].tenant == s.categories[b].tenant
    ensures StagedCategory(plan, g, a, s.categories[a]).path != StagedCategory(plan, g, b, s.categories[b]).path
  {
    TempPathInjective(a, b);
    assert PathsDiffer(s, a, b);
    assert TempFree(s, plan, a, b) && TempFree(s, plan, b, a) && GroupSound(s, plan, a, b);
    assert g.finished != {} ==> a in Keepers(plan) && b in Keepers(plan);
  }

  lemma TempPathInjective(a: Id, b: Id)
    ensures TempPath(a) == TempPath(b) <==> a == b
  {
    assert TempPath(a)[7..] == a.text && TempPath(b)[7..] == b.text;
  }

  lemma MovedProducts(s: Snapshot, plan: Plan, g: Progress, d: Id)
    requires GoodPlan(s, plan) && InProgress(s, plan, g)
    requires d in Duplicates(plan) && d !in g.moved
    ensures RepointProducts(Stage(s, plan, g), d, plan.keeper[d]) == Some(Stage(s, plan, g.(moved := g.moved + {d})))
  {
    var t, t' := Stage(s, plan, g), Stage(s, plan, g.(moved := g.moved + {d}));
    assert KeeperSound(s, plan, d);
    forall p | p in s.products ensures Redirect(t.products[p], d, Some(plan.keeper[d])) == t'.products[p] {
      FollowStep(s, plan, g.moved, s.products[p], d);
    }
    assert t.categories == t'.categories && plan.keeper[d] in t.categories;
    assert WithProducts(t, d, Some(plan.keeper[d])).products == t'.products;
  }

  lemma MovedChildren(s: Snapshot, plan: Plan, g: Progress, d: Id)
    requires GoodPlan(s, plan) && InProgress(s, plan, g)
    requires d in g.moved && d !in g.reparented
    ensures RepointChildren(Stage(s, plan, g), d, plan.keeper[d])
         == Some(Stage(s, plan, g.(reparented := g.reparented + {d})))
  {
    var t, t' := Stage(s, plan, g), Stage(s, plan, g.(reparented := g.reparented + {d}));
    assert KeeperSound(s, plan, d);
    var t2 := WithParents(t, d, Some(plan.keeper[d]));
    forall c | c in t.categories ensures t2.categories[c] == t'.categories[c] {
      FollowStep(s, plan, g.reparented, s.categories[c].parent, d);
    }
    assert t2.categories == t'.categories;
  }

  /** Deleting a row nothing refers to clears no reference. */
  lemma DeleteUnreferenced(t: Snapshot, d: Id)
    requires d in t.categories
    requires forall c | c in t.categories :: t.categories[c].parent != Some(d)
    requires forall p | p in t.products :: t.products[p] != Some(d)
    ensures DeleteCategory(t, d) == Some(Snapshot(map c | c in t.categories && c != d :: t.categories[c], t.products))
  {
    assert WithProducts(t, d, None).products == t.products;
    assert WithParents(t, d, None).categories == t.categories;
  }

  lemma DeletedDuplicate(s: Snapshot, plan: Plan, g: Progress, d: Id)
    requires GoodPlan(s, plan) && InProgress(s, plan, g)
    requires d in g.reparented && d !in g.dead
    ensures DeleteCategory(Stage(s, plan, g), d) == Some(Stage(s, plan, g.(dead := g.dead + {d})))
  {
    var t, t' := Stage(s, plan, g), Stage(s, plan, g.(dead := g.dead + {d}));
    forall p | p in s.products ensures t.products[p] != Some(d) {
      FollowAvoids(s, plan, g.moved, s.products[p], d);
    }
    forall c | c in t.categories ensures t.categories[c].parent != Some(d) {
      FollowAvoids(s, plan, g.reparented, s.categories[c].parent, d);
    }
    DeleteUnreferenced(t, d);
    StageWithout(s, plan, g, d);
  }

  lemma StageWithout(s: Snapshot, plan: Plan, g: Progress, d: Id)
    requires GoodPlan(s, plan)
    ensures var t, t' := Stage(s, plan, g), Stage(s, plan, g.(dead := g.dead + {d}));
      (map c | c in t.categories && c != d :: t.categories[c]) == t'.categories && t.products == t'.products
  {
  }

  lemma StampedKeeper(s: Snapshot, plan: Plan, g: Progress, k: Id)
    requires GoodPlan(s, plan) && InProgress(s, plan, g)
    requires k in Keepers(plan) && k !in g.stamped && g.finished == {}
    ensures SetPath(Stage(s, plan, g), k, TempPath(k)) == Some(Stage(s, plan, g.(stamped := g.stamped + {k})))
  {
    var t, t' := Stage(s, plan, g), Stage(s, plan, g.(stamped := g.stamped + {k}));
    forall other | other in t.categories && other != k ensures t.categories[other].path != TempPath(k) {
      TempPathInjective(other, k);
      assert TempFree(s, plan, other, k);
    }
    assert t.categories[k := t.categories[k].(name := s.categories[k].name, path := TempPath(k))] == t'.categories;
  }

  lemma FinishedKeeper(s: Snapshot, plan: Plan, g: Progress, k: Id)
    requires GoodPlan(s, plan) && InProgress(s, plan, g.(finished := g.finished + {k}))
    requires k in g.stamped && k !in g.finished
    ensures RenameCategory(Stage(s, plan, g), k, plan.name[k], plan.path[k])
         == Some(Stage(s, plan, g.(finished := g.finished + {k})))
  {
    var g' := g.(finished := g.finished + {k});
    var t, t' := Stage(s, plan, g), Stage(s, plan, g');
    forall other | other in t.categories && other != k && t.categories[other].tenant == t.categories[k].tenant
      ensures t.categories[other].path != plan.path[k]
    {
      StagePathsDiffer(s, plan, g', other, k);
    }
    FinishedRow(s, plan, g, k);
  }

  lemma FinishedRow(s: Snapshot, plan: Plan, g: Progress, k: Id)
    requires GoodPlan(s, plan) && k in Keepers(plan) && k !in g.dead
    ensures var t, t' := Stage(s, plan, g), Stage(s, plan, g.(finished := g.finished + {k}));
      && k in t.categories && t'.products == t.products
      && t'.categories == t.categories[k := t.categories[k].(name := plan.name[k], path := plan.path[k])]
  {
  }

  // ----- The state a run ends in -----

  ghost function ToKeeper(plan: Plan, ref: Option<Id>): Option<Id> {
    if ref.Some? && ref.value in plan.keeper then Some(plan.keeper[ref.value]) else ref
  }

  /** Only keepers survive, at their normalised paths; every reference goes to the keeper of its target. */
  ghost function Quotient(s: Snapshot, plan: Plan): Snapshot
    requires plan.keeper.Keys == plan.name.Keys == plan.path.Keys == s.categories.Keys
  {
    Snapshot(map id | id in s.categories && plan.keeper[id] == id ::
               Category(s.categories[id].tenant, plan.name[id], plan.path[id], ToKeeper(plan, s.categories[id].parent)),
             map p | p in s.products :: ToKeeper(plan, s.products[p]))
  }

  lemma FollowEverything(s: Snapshot, plan: Plan, ref: Option<Id>)
    requires GoodPlan(s, plan)
    ensures Follow(plan, Duplicates(plan), ref) == ToKeeper(plan, ref)
  {
  }

  lemma LastStageIsQuotient(s: Snapshot, plan: Plan, g: Progress)
    requires GoodPlan(s, plan)
    requires g.moved == g.reparented == g.dead == Duplicates(plan)
    requires g.finished == g.stamped <= Keepers(plan)
    requires forall k | k in Keepers(plan) - g.stamped ::
               s.categories[k].name == plan.name[k] && s.categories[k].path == plan.path[k]
    ensures Stage(s, plan, g) == Quotient(s, plan)
  {
    var t, q := Stage(s, plan, g), Quotient(s, plan);
    forall c | c in t.categories ensures c in q.categories && t.categories[c] == q.categories[c] {
      FollowEverything(s, plan, s.categories[c].parent);
    }
    assert t.categories == q.categories;
    forall p | p in s.products ensures t.products[p] == q.products[p] {
      FollowEverything(s, plan, s.products[p]);
    }
    assert t.products == q.products;
  }

  lemma PlanIsGood(s: Snapshot, nn: string -> string, order: seq<Id>)
    requires Ready(s, nn, order)
    ensures GoodPlan(s, PlanOf(s.categories, nn, order))
  {
    var cats, plan := s.categories, PlanOf(s.categories, nn, order);
    forall a | a in cats ensures KeeperSound(s, plan, a) {
      var k := plan.keeper[a];
      KeeperInGroup(cats, nn, order, a);
      assert CleanKey(cats, nn, a) && CleanKey(cats, nn, k);
      GroupKeyInjective(cats[a].tenant, plan.path[a], cats[k].tenant, plan.path[k]);
    }
    forall a, b | a in cats && b in cats ensures GroupSound(s, plan, a, b) {
      KeeperInGroup(cats, nn, order, a);
      KeeperInGroup(cats, nn, order, b);
      assert CleanKey(cats, nn, a) && CleanKey(cats, nn, b);
      GroupKeyInjective(cats[a].tenant, plan.path[a], cats[b].tenant, plan.path[b]);
    }
    forall a, b | a in cats && b in cats ensures TempFree(s, plan, a, b) {
      assert NoTempPath(cats, nn, a, b);
    }
  }

  // ----- The script -----

  datatype FinalWrite = FinalWrite(id: Id, newName: string, newPath: string)

  ghost function FinalIds(finals: seq<FinalWrite>): set<Id> {
    set f | f in finals :: f.id
  }

  ghost function Merged(g: Progress, ids: set<Id>): Progress {
    g.(moved := g.moved + ids, reparented := g.reparented + ids, dead := g.dead + ids)
  }

  ghost predicate Merging(s: Snapshot, plan: Plan, g: Progress) {
    && GoodPlan(s, plan)
    && InProgress(s, plan, g)
    && g.moved == g.reparented == g.dead
    && g.finished == {}
  }

  lemma BucketGrows(cats: map<Id, Category>, nn: string -> string, order: seq<Id>, i: nat, key: string)
    requires Lists(order, cats) && i < |order|
    ensures forall id | id in order[..i + 1] :: id in cats
    ensures Bucket(cats, nn, order[..i + 1], key)
         == Bucket(cats, nn, order[..i], key) + if KeyOf(nn, cats[order[i]]) == key then [order[i]] else []
  {
    assert order[..i + 1][..i] == order[..i];
  }

  /** `byKey` holds, under each key met in `seen`, the rows of `seen` with that key. */
  ghost predicate Grouped(cats: map<Id, Category>, nn: string -> string, seen: seq<Id>,
                          keys: seq<string>, byKey: map<string, seq<Id>>)
    requires forall id | id in seen :: id in cats
  {
    && Distinct(keys)
    && (forall k :: k in keys <==> k in byKey)
    && (forall k | k in byKey :: byKey[k] != [] && byKey[k] == Bucket(cats, nn, seen, k))
    && (forall k | k !in byKey :: Bucket(cats, nn, seen, k) == [])
  }

  lemma KeysGrow(keys: seq<string>, byKey: map<string, seq<Id>>, key: string, rows: seq<Id>)
    requires Distinct(keys) && forall k :: k in keys <==> k in byKey
    ensures var keys' := if key in byKey then keys else keys + [key];
      Distinct(keys') && forall k :: k in keys' <==> k in byKey[key := rows]
  {
  }

  /** The lists after a row was pushed under its key. */
  function PushRow(byKey: map<string, seq<Id>>, key: string, id: Id): map<string, seq<Id>> {
    byKey[key := (if key in byKey then byKey[key] else []) + [id]]
  }

  /** A key's list is its bucket; a key without a list has none. */
  ghost predicate ListsBucket(byKey: map<string, seq<Id>>, k: string, bucket: seq<Id>) {
    if k in byKey then byKey[k] != [] && byKey[k] == bucket else bucket == []
  }

  lemma PushedListsBucket(byKey: map<string, seq<Id>>, key: string, id: Id, k: string, bucket: seq<Id>)
    requires ListsBucket(byKey, k, bucket)
    ensures ListsBucket(PushRow(byKey, key, id), k, bucket + if key == k then [id] else [])
  {
  }

  lemma BucketListed(cats: map<Id, Category>, nn: string -> string, order: seq<Id>, i: nat,
                     keys: seq<string>, byKey: map<string, seq<Id>>, k: string)
    requires Lists(order, cats) && i < |order| && Grouped(cats, nn, order[..i], keys, byKey)
    ensures forall id | id in order[..i + 1] :: id in cats
    ensures ListsBucket(PushRow(byKey, KeyOf(nn, cats[order[i]]), order[i]), k, Bucket(cats, nn, order[..i + 1], k))
  {
    BucketGrows(cats, nn, order, i, k);
    PushedListsBucket(byKey, KeyOf(nn, cats[order[i]]), order[i], k, Bucket(cats, nn, order[..i], k));
  }

  lemma GroupedByBuckets(cats: map<Id, Category>, nn: string -> string, seen: seq<Id>,
                         keys: seq<string>, byKey: map<string, seq<Id>>)
    requires forall id | id in seen :: id in cats
    requires Distinct(keys) && forall k :: k in keys <==> k in byKey
    requires forall k :: ListsBucket(byKey, k, Bucket(cats, nn, seen, k))
    ensures Grouped(cats, nn, seen, keys, byKey)
  {
  }

  lemma GroupedGrows(cats: map<Id, Category>, nn: string -> string, order: seq<Id>, i: nat,
                     keys: seq<string>, byKey: map<string, seq<Id>>)
    requires Lists(order, cats) && i < |order| && Grouped(cats, nn, order[..i], keys, byKey)
    ensures forall id | id in order[..i + 1] :: id in cats
    ensures
      var key := KeyOf(nn, cats[order[i]]);
      Grouped(cats, nn, order[..i + 1], if key in byKey then keys else keys + [key], PushRow(byKey, key, order[i]))
  {
    var key := KeyOf(nn, cats[order[i]]);
    var byKey' := PushRow(byKey, key, order[i]);
    KeysGrow(keys, byKey, key, byKey'[key]);
    BucketListed(cats, nn, order, i, keys, byKey, key);
    var seen := order[..i + 1];
    forall k ensures ListsBucket(byKey', k, Bucket(cats, nn, seen, k)) {
      BucketListed(cats, nn, order, i, keys, byKey, k);
    }
    GroupedByBuckets(cats, nn, seen, if key in byKey then keys else keys + [key], byKey');
  }

  method GroupRows(cats: map<Id, Category>, nn: string -> string, order: seq<Id>)
    returns (keys: seq<string>, byKey: map<string, seq<Id>>)
    requires Lists(order, cats)
    ensures Grouped(cats, nn, order, keys, byKey)
  {
    keys, byKey := [], map[];
    for i := 0 to |order|
      invariant Grouped(cats, nn, order[..i], keys, byKey)
    {
      var key := KeyOf(nn, cats[order[i]]);
      GroupedGrows(cats, nn, order, i, keys, byKey);
      if key !in byKey {
        keys := keys + [key];
        byKey := byKey[key := []];
      }
      byKey := byKey[key := byKey[key] + [order[i]]];
    }
    assert order[..|order|] == order;
  }

  /** The three states a duplicate's merge goes through. */
  lemma MergeSteps(s: Snapshot, plan: Plan, g: Progress, d: Id) returns (s1: Snapshot, s2: Snapshot, s3: Snapshot)
    requires Merging(s, plan, g) && d in Duplicates(plan) && d !in g.dead
    ensures Merging(s, plan, Merged(g, {d})) && s3 == Stage(s, plan, Merged(g, {d}))
    ensures RepointProducts(Stage(s, plan, g), d, plan.keeper[d]) == Some(s1)
    ensures RepointChildren(s1, d, plan.keeper[d]) == Some(s2)
    ensures DeleteCategory(s2, d) == Some(s3)
    ensures Consistent(s1) && Consistent(s2) && Consistent(s3)
  {
    var g1 := g.(moved := g.moved + {d});
    var g2 := g1.(reparented := g1.reparented + {d});
    s1, s2, s3 := Stage(s, plan, g1), Stage(s, plan, g2), Stage(s, plan, Merged(g, {d}));
    assert g2.(dead := g2.dead + {d}) == Merged(g, {d});
    MovedProducts(s, plan, g, d);
    MovedChildren(s, plan, g1, d);
    DeletedDuplicate(s, plan, g2, d);
    StageConsistent(s, plan, g1);
    StageConsistent(s, plan, g2);
    StageConsistent(s, plan, Merged(g, {d}));
  }

  /** Moves the products and children of `d` to `keeper` and deletes `d`. */
  method MergeDuplicate(db: Database, ghost s: Snapshot, ghost plan: Plan, ghost g: Progress, keeper: Id, d: Id)
    returns (ok: bool)
    requires Merging(s, plan, g) && db.Current() == Stage(s, plan, g)
    requires d in Duplicates(plan) && d !in g.dead && plan.keeper[d] == keeper
    modifies db
    ensures ok && Merging(s, plan, Merged(g, {d})) && db.Current() == Stage(s, plan, Merged(g, {d}))
    ensures db.ConsistentSince(old(db.history))
  {
    ghost var s1, s2, s3 := MergeSteps(s, plan, g, d);
    ok := db.Commit(RepointProducts(db.Current(), d, keeper));
    if !ok { return; }
    ok := db.Commit(RepointChildren(db.Current(), d, keeper));
    if !ok { return; }
    ok := db.Commit(DeleteCategory(db.Current(), d));
  }

  /** A row the script skips: alone in its group, with its final name and path already. */
  ghost predicate InPlace(cats: map<Id, Category>, nn: string -> string, order: seq<Id>, plan: Plan, id: Id)
    requires Lists(order, cats) && id in cats && id in plan.name && id in plan.path
  {
    && cats[id].name == plan.name[id]
    && cats[id].path == plan.path[id]
    && Bucket(cats, nn, order, KeyOf(nn, cats[id])) == [id]
  }

  ghost function Skipped(cats: map<Id, Category>, nn: string -> string, order: seq<Id>, plan: Plan): set<Id>
    requires Fits(cats, nn, order, plan)
  {
    set id | id in cats && InPlace(cats, nn, order, plan, id)
  }

  /** Progress on one row, given the keys whose groups are done. */
  ghost predicate CoversRow(cats: map<Id, Category>, nn: string -> string, order: seq<Id>, plan: Plan,
                            done: seq<string>, g: Progress, kept: set<Id>, id: Id)
    requires Fits(cats, nn, order, plan)
  {
    var ready := id in cats && KeyOf(nn, cats[id]) in done;
    && (id in g.dead <==> ready && plan.keeper[id] != id)
    && (id in g.stamped <==> ready && plan.keeper[id] == id && !InPlace(cats, nn, order, plan, id))
    && (id in kept <==> ready && InPlace(cats, nn, order, plan, id))
  }

  /** The groups of the keys in `done` have been merged, and their keepers stamped or skipped. */
  ghost predicate Covers(cats: map<Id, Category>, nn: string -> string, order: seq<Id>, plan: Plan,
                         done: seq<string>, g: Progress, kept: set<Id>)
    requires Fits(cats, nn, order, plan)
  {
    forall id {:trigger CoversRow(cats, nn, order, plan, done, g, kept, id)} ::
      CoversRow(cats, nn, order, plan, done, g, kept, id)
  }

  ghost function Elements(ids: seq<Id>): set<Id> {
    set id | id in ids
  }

  lemma TailOfDistinct(group: seq<Id>, id: Id)
    requires group != [] && Distinct(group)
    ensures id in group[1..] <==> id in group && id != group[0]
  {
    assert group == [group[0]] + group[1..];
  }

  /** What the bucket of a key says about the plan. */
  lemma BucketPlan(cats: map<Id, Category>, nn: string -> string, order: seq<Id>, plan: Plan, key: string, id: Id)
    requires Fits(cats, nn, order, plan)
    requires Bucket(cats, nn, order, key) != []
    ensures
      var group := Bucket(cats, nn, order, key);
      && (id in group <==> id in cats && KeyOf(nn, cats[id]) == key)
      && (id in group ==> plan.keeper[id] == group[0])
      && (id in group[1..] <==> id in group && id != group[0])
      && Distinct(group)
  {
    var group := Bucket(cats, nn, order, key);
    BucketMembers(cats, nn, order, key);
    assert id in cats ==> FitsRow(cats, nn, order, plan, id);
    TailOfDistinct(group, id);
  }

  ghost function Covered(g: Progress, group: seq<Id>, skip: bool): Progress
    requires group != []
  {
    var g' := Merged(g, Elements(group[1..]));
    if skip then g' else g'.(stamped := g'.stamped + {group[0]})
  }

  lemma CoverGroupRow(cats: map<Id, Category>, nn: string -> string, order: seq<Id>, plan: Plan,
                      done: seq<string>, key: string, g: Progress, kept: set<Id>, skip: bool, id: Id)
    requires Fits(cats, nn, order, plan)
    requires CoversRow(cats, nn, order, plan, done, g, kept, id) && key !in done
    requires Bucket(cats, nn, order, key) != []
    requires var k := Bucket(cats, nn, order, key)[0]; k in cats && skip == InPlace(cats, nn, order, plan, k)
    ensures
      var group := Bucket(cats, nn, order, key);
      CoversRow(cats, nn, order, plan, done + [key], Covered(g, group, skip),
                if skip then kept + {group[0]} else kept, id)
  {
    var group := Bucket(cats, nn, order, key);
    BucketPlan(cats, nn, order, plan, key, group[0]);
    BucketPlan(cats, nn, order, plan, key, id);
    assert id in Elements(group[1..]) <==> id in group && id != group[0];
    assert id in cats ==> (KeyOf(nn, cats[id]) in done + [key] <==> KeyOf(nn, cats[id]) in done || id in group);
  }

  lemma CoverGroup(cats: map<Id, Category>, nn: string -> string, order: seq<Id>, plan: Plan,
                   done: seq<string>, key: string, g: Progress, kept: set<Id>, skip: bool)
    requires Fits(cats, nn, order, plan)
    requires Covers(cats, nn, order, plan, done, g, kept) && key !in done
    requires Bucket(cats, nn, order, key) != []
    requires var k := Bucket(cats, nn, order, key)[0]; k in cats && skip == InPlace(cats, nn, order, plan, k)
    ensures
      var group := Bucket(cats, nn, order, key);
      Covers(cats, nn, order, plan, done + [key], Covered(g, group, skip), if skip then kept + {group[0]} else kept)
  {
    var group := Bucket(cats, nn, order, key);
    var g', kept' := Covered(g, group, skip), if skip then kept + {group[0]} else kept;
    forall id ensures CoversRow(cats, nn, order, plan, done + [key], g', kept', id) {
      assert CoversRow(cats, nn, order, plan, done, g, kept, id);
      CoverGroupRow(cats, nn, order, plan, done, key, g, kept, skip, id);
    }
  }

  lemma GroupPrefix(group: seq<Id>, i: nat)
    requires Distinct(group) && 1 <= i < |group|
    ensures group[i] !in Elements(group[1..i])
    ensures Elements(group[1..i + 1]) == Elements(group[1..i]) + {group[i]}
  {
    assert group[1..i + 1] == group[1..i] + [group[i]];
  }

  /** Merges every row of a group after the first into the first. */
  method MergeGroup(db: Database, ghost s: Snapshot, ghost plan: Plan, ghost g: Progress, group: seq<Id>)
    returns (ok: bool, merged: nat)
    requires Merging(s, plan, g) && db.Current() == Stage(s, plan, g)
    requires group != [] && Distinct(group)
    requires forall i | 1 <= i < |group| ::
               group[i] in Duplicates(plan) && group[i] !in g.dead && plan.keeper[group[i]] == group[0]
    modifies db
    ensures ok && merged == |group| - 1
    ensures Merging(s, plan, Merged(g, Elements(group[1..])))
    ensures db.Current() == Stage(s, plan, Merged(g, Elements(group[1..])))
    ensures db.ConsistentSince(old(db.history))
  {
    ok, merged := true, 0;
    ghost var g' := g;
    for i := 1 to |group|
      invariant ok && merged == i - 1
      invariant g' == Merged(g, Elements(group[1..i]))
      invariant Merging(s, plan, g') && db.Current() == Stage(s, plan, g')
      invariant db.ConsistentSince(old(db.history))
    {
      GroupPrefix(group, i);
      ok := MergeDuplicate(db, s, plan, g', group[0], group[i]);
      if !ok { return; }
      g' := Merged(g', {group[i]});
      merged := merged + 1;
    }
    assert group[1..|group|] == group[1..];
  }

  /** `finals` lists exactly the stamped keepers, once each, with their final name and path. */
  ghost predicate FinalsFor(plan: Plan, finals: seq<FinalWrite>, stamped: set<Id>) {
    && (forall i, j | 0 <= i < j < |finals| :: finals[i].id != finals[j].id)
    && FinalIds(finals) == stamped
    && |finals| == |stamped|
    && (forall f | f in finals ::
          f.id in plan.name && f.id in plan.path && f.newName == plan.name[f.id] && f.newPath == plan.path[f.id])
  }

  lemma FinalsGrow(plan: Plan, finals: seq<FinalWrite>, stamped: set<Id>, f: FinalWrite)
    requires FinalsFor(plan, finals, stamped) && f.id !in stamped
    requires f.id in plan.name && f.id in plan.path && f.newName == plan.name[f.id] && f.newPath == plan.path[f.id]
    ensures FinalsFor(plan, finals + [f], stamped + {f.id})
  {
    assert forall i | 0 <= i < |finals| :: finals[i].id in FinalIds(finals);
    assert FinalIds(finals + [f]) == FinalIds(finals) + {f.id};
  }

  /** Stamps the keeper of a merged group, or leaves it alone when it is in place. */
  method StampKeeper(db: Database, ghost s: Snapshot, ghost plan: Plan, ghost g: Progress,
                     keeper: Id, newName: string, newPath: string, finals: seq<FinalWrite>)
    returns (ok: bool, finals': seq<FinalWrite>)
    requires Merging(s, plan, g) && db.Current() == Stage(s, plan, g)
    requires keeper in Keepers(plan) && keeper !in g.stamped && FinalsFor(plan, finals, g.stamped)
    requires newName == plan.name[keeper] && newPath == plan.path[keeper]
    modifies db
    ensures var g' := g.(stamped := g.stamped + {keeper});
      ok && Merging(s, plan, g') && db.Current() == Stage(s, plan, g') && FinalsFor(plan, finals', g'.stamped)
    ensures db.ConsistentSince(old(db.history))
  {
    StampedKeeper(s, plan, g, keeper);
    StageConsistent(s, plan, g.(stamped := g.stamped + {keeper}));
    FinalsGrow(plan, finals, g.stamped, FinalWrite(keeper, newName, newPath));
    finals' := finals;
    ok := db.Commit(SetPath(db.Current(), keeper, TempPath(keeper)));
    if !ok { return; }
    finals' := finals + [FinalWrite(keeper, newName, newPath)];
  }

  lemma NothingDone(s: Snapshot, plan: Plan)
    requires GoodPlan(s, plan)
    ensures Merging(s, plan, Progress({}, {}, {}, {}, {}))
    ensures Stage(s, plan, Progress({}, {}, {}, {}, {})) == s
  {
    var t := Stage(s, plan, Progress({}, {}, {}, {}, {}));
    assert t.categories == s.categories;
    assert t.products == s.products;
  }

  lemma {:induction false} ElementsSize(ids: seq<Id>)
    requires Distinct(ids)
    ensures |Elements(ids)| == |ids|
  {
    if ids != [] {
      ElementsSize(ids[1..]);
      assert Elements(ids) == {ids[0]} + Elements(ids[1..]);
    }
  }

  /** A group whose key is not done has neither been merged nor stamped. */
  lemma GroupReady(cats: map<Id, Category>, nn: string -> string, order: seq<Id>, plan: Plan,
                   done: seq<string>, key: string, g: Progress, kept: set<Id>)
    requires Fits(cats, nn, order, plan)
    requires Covers(cats, nn, order, plan, done, g, kept) && key !in done
    requires Bucket(cats, nn, order, key) != []
    ensures
      var group := Bucket(cats, nn, order, key);
      && group[0] in Keepers(plan) && group[0] !in g.stamped && group[0] !in kept
      && Distinct(group)
      && (forall i | 1 <= i < |group| ::
            group[i] in Duplicates(plan) && group[i] !in g.dead && plan.keeper[group[i]] == group[0])
  {
    var group := Bucket(cats, nn, order, key);
    BucketPlan(cats, nn, order, plan, key, group[0]);
    assert CoversRow(cats, nn, order, plan, done, g, kept, group[0]);
    forall i | 1 <= i < |group|
      ensures group[i] in Duplicates(plan) && group[i] !in g.dead && plan.keeper[group[i]] == group[0]
    {
      BucketPlan(cats, nn, order, plan, key, group[i]);
      assert CoversRow(cats, nn, order, plan, done, g, kept, group[i]);
    }
  }

  /** The path read back from a key is the normalised path of its group, and the skip test is `InPlace`. */
  lemma KeyReadsBack(cats: map<Id, Category>, nn: string -> string, order: seq<Id>, plan: Plan, key: string)
    requires Fits(cats, nn, order, plan) && CleanKeys(cats, nn)
    requires Bucket(cats, nn, order, key) != []
    ensures
      var group := Bucket(cats, nn, order, key);
      && group[0] in cats
      && KeyPath(key) == plan.path[group[0]] && LastSegment(KeyPath(key)) == plan.name[group[0]]
      && (InPlace(cats, nn, order, plan, group[0]) <==>
          cats[group[0]].name == plan.name[group[0]] && cats[group[0]].path == plan.path[group[0]] && |group| == 1)
  {
    var group := Bucket(cats, nn, order, key);
    BucketPlan(cats, nn, order, plan, key, group[0]);
    assert FitsRow(cats, nn, order, plan, group[0]) && CleanKey(cats, nn, group[0]);
    KeyPathRoundTrip(cats[group[0]].tenant, plan.path[group[0]]);
  }

  /** Phase 1 so far: the groups of `done` are merged, counted, and stamped or skipped. */
  ghost predicate Phase1(cats: map<Id, Category>, nn: string -> string, order: seq<Id>, s: Snapshot, plan: Plan,
                         done: seq<string>, g: Progress, kept: set<Id>,
                         finals: seq<FinalWrite>, merged: nat, skipped: nat)
    requires Fits(cats, nn, order, plan)
  {
    && Merging(s, plan, g)
    && Covers(cats, nn, order, plan, done, g, kept)
    && FinalsFor(plan, finals, g.stamped)
    && merged == |g.dead|
    && skipped == |kept|
  }

  /** Merging a group, and stamping or skipping its keeper, extends `Phase1` by its key. */
  lemma VisitGroupStep(cats: map<Id, Category>, nn: string -> string, order: seq<Id>, s: Snapshot, plan: Plan,
                       done: seq<string>, g: Progress, kept: set<Id>, finals: seq<FinalWrite>, finals': seq<FinalWrite>,
                       merged: nat, skipped: nat, key: string, group: seq<Id>, skip: bool)
    requires Fits(cats, nn, order, plan)
    requires Phase1(cats, nn, order, s, plan, done, g, kept, finals, merged, skipped)
    requires key !in done && group == Bucket(cats, nn, order, key) && group != []
    requires group[0] in cats && skip == InPlace(cats, nn, order, plan, group[0])
    requires Merging(s, plan, Covered(g, group, skip)) && FinalsFor(plan, finals', Covered(g, group, skip).stamped)
    ensures Phase1(cats, nn, order, s, plan, done + [key], Covered(g, group, skip),
                   if skip then kept + {group[0]} else kept, finals', merged + |group| - 1,
                   if skip then skipped + 1 else skipped)
  {
    CoverGroup(cats, nn, order, plan, done, key, g, kept, skip);
    GroupSizes(cats, nn, order, plan, done, key, g, kept);
  }

  lemma GroupSizes(cats: map<Id, Category>, nn: string -> string, order: seq<Id>, plan: Plan,
                   done: seq<string>, key: string, g: Progress, kept: set<Id>)
    requires Fits(cats, nn, order, plan)
    requires Covers(cats, nn, order, plan, done, g, kept) && key !in done
    requires Bucket(cats, nn, order, key) != []
    ensures var group := Bucket(cats, nn, order, key);
      |g.dead + Elements(group[1..])| == |g.dead| + |group| - 1 && group[0] !in kept
  {
    GroupReady(cats, nn, order, plan, done, key, g, kept);
    AddedElements(g.dead, Bucket(cats, nn, order, key)[1..]);
  }

  lemma AddedElements(ids: set<Id>, more: seq<Id>)
    requires Distinct(more) && forall i | 0 <= i < |more| :: more[i] !in ids
    ensures |ids + Elements(more)| == |ids| + |more|
  {
    ElementsSize(more);
    assert Elements(more) !! ids;
  }

  /** One pass of the first loop. */
  method VisitGroup(db: Database, cats: map<Id, Category>, ghost s: Snapshot, ghost nn: string -> string,
                    ghost order: seq<Id>, ghost plan: Plan, ghost done: seq<string>, ghost g: Progress,
                    ghost kept: set<Id>, key: string, group: seq<Id>, finals: seq<FinalWrite>,
                    merged: nat, skipped: nat)
    returns (ok: bool, finals': seq<FinalWrite>, merged': nat, skipped': nat, ghost g': Progress, ghost kept': set<Id>)
    requires Fits(cats, nn, order, plan) && CleanKeys(cats, nn)
    requires Phase1(cats, nn, order, s, plan, done, g, kept, finals, merged, skipped)
    requires db.Current() == Stage(s, plan, g)
    requires key !in done && group == Bucket(cats, nn, order, key) && group != []
    modifies db
    ensures ok && db.ConsistentSince(old(db.history))
    ensures Phase1(cats, nn, order, s, plan, done + [key], g', kept', finals', merged', skipped')
    ensures db.Current() == Stage(s, plan, g')
  {
    finals', merged', skipped', g', kept' := finals, merged, skipped, g, kept;
    KeyReadsBack(cats, nn, order, plan, key);
    GroupReady(cats, nn, order, plan, done, key, g, kept);
    var newPath := KeyPath(key);
    var newName := LastSegment(newPath);
    var keeper := group[0];
    var count;
    ok, count := MergeGroup(db, s, plan, g, group);
    if !ok { return; }
    merged' := merged + count;
    g' := Merged(g, Elements(group[1..]));
    var skip := cats[keeper].name == newName && cats[keeper].path == newPath && |group| == 1;
    if skip {
      skipped', kept' := skipped + 1, kept + {keeper};
    } else {
      ok, finals' := StampKeeper(db, s, plan, g', keeper, newName, newPath, finals);
      g' := g'.(stamped := g'.stamped + {keeper});
    }
    VisitGroupStep(cats, nn, order, s, plan, done, g, kept, finals, finals', merged, skipped, key, group, skip);
  }

  /** Phase 2: moves every stamped keeper to its final name and path. */
  method WriteFinals(db: Database, ghost s: Snapshot, ghost plan: Plan, ghost g: Progress, finals: seq<FinalWrite>)
    returns (ok: bool, updated: nat)
    requires Merging(s, plan, g) && db.Current() == Stage(s, plan, g)
    requires g.dead == Duplicates(plan) && FinalsFor(plan, finals, g.stamped)
    requires forall k | k in Keepers(plan) :: k in g.stamped || s.categories[k].path == plan.path[k]
    modifies db
    ensures ok && updated == |finals|
    ensures db.Current() == Stage(s, plan, g.(finished := g.stamped))
    ensures db.ConsistentSince(old(db.history))
  {
    ok, updated := true, 0;
    ghost var finished: set<Id> := {};
    for i := 0 to |finals|
      invariant ok && updated == i
      invariant finished == FinalIds(finals[..i])
      invariant InProgress(s, plan, g.(finished := finished))
      invariant db.Current() == Stage(s, plan, g.(finished := finished))
      invariant db.ConsistentSince(old(db.history))
    {
      var f := finals[i];
      FinalsPrefix(plan, finals, g.stamped, i);
      FinishedKeeper(s, plan, g.(finished := finished), f.id);
      StageConsistent(s, plan, g.(finished := finished + {f.id}));
      ok := db.Commit(RenameCategory(db.Current(), f.id, f.newName, f.newPath));
      if !ok { return; }
      finished := finished + {f.id};
      updated := updated + 1;
    }
    assert finals[..|finals|] == finals;
  }

  lemma FinalsPrefix(plan: Plan, finals: seq<FinalWrite>, stamped: set<Id>, i: nat)
    requires FinalsFor(plan, finals, stamped) && i < |finals|
    ensures finals[i].id in stamped && finals[i].id !in FinalIds(finals[..i])
    ensures FinalIds(finals[..i + 1]) == FinalIds(finals[..i]) + {finals[i].id}
  {
    assert finals[i] in finals;
    assert finals[..i + 1] == finals[..i] + [finals[i]];
  }

  /** When every key is done, every row has been merged, stamped or skipped. */
  lemma RowCovered(cats: map<Id, Category>, nn: string -> string, order: seq<Id>, plan: Plan,
                   keys: seq<string>, byKey: map<string, seq<Id>>, g: Progress, kept: set<Id>, id: Id)
    requires Fits(cats, nn, order, plan) && Grouped(cats, nn, order, keys, byKey)
    requires Covers(cats, nn, order, plan, keys, g, kept)
    ensures id in g.dead <==> id in Duplicates(plan)
    ensures id in kept <==> id in Skipped(cats, nn, order, plan)
    ensures id in g.stamped <==> id in Keepers(plan) && id !in kept
    ensures id in kept ==> id in Keepers(plan)
  {
    assert CoversRow(cats, nn, order, plan, keys, g, kept, id);
    if id in cats {
      assert FitsRow(cats, nn, order, plan, id);
      BucketMembers(cats, nn, order, KeyOf(nn, cats[id]));
    }
  }

  lemma AllCovered(cats: map<Id, Category>, nn: string -> string, order: seq<Id>, plan: Plan,
                   keys: seq<string>, byKey: map<string, seq<Id>>, g: Progress, kept: set<Id>)
    requires Fits(cats, nn, order, plan) && Grouped(cats, nn, order, keys, byKey)
    requires Covers(cats, nn, order, plan, keys, g, kept)
    ensures g.dead == Duplicates(plan) && kept == Skipped(cats, nn, order, plan)
    ensures g.stamped == Keepers(plan) - kept && kept <= Keepers(plan)
  {
    forall id
      ensures id in g.dead <==> id in Duplicates(plan)
      ensures id in kept <==> id in Skipped(cats, nn, order, plan)
      ensures id in g.stamped <==> id in Keepers(plan) && id !in kept
      ensures id in kept ==> id in Keepers(plan)
    {
      RowCovered(cats, nn, order, plan, keys, byKey, g, kept, id);
    }
  }

  lemma DisjointSizes(a: set<Id>, b: set<Id>, all: set<Id>)
    requires a !! b && a + b == all
    ensures |a| + |b| == |all|
  {
  }

  lemma CountsAddUp(cats: map<Id, Category>, order: seq<Id>, plan: Plan, kept: set<Id>)
    requires Lists(order, cats) && plan.keeper.Keys == cats.Keys && kept <= Keepers(plan)
    ensures |Duplicates(plan)| + |Keepers(plan) - kept| + |kept| == |order|
  {
    ElementsSize(order);
    assert Elements(order) == cats.Keys;
    DisjointSizes(Duplicates(plan), Keepers(plan), cats.Keys);
    DisjointSizes(Keepers(plan) - kept, kept, Keepers(plan));
  }

  lemma NothingVisited(cats: map<Id, Category>, nn: string -> string, order: seq<Id>, s: Snapshot, plan: Plan)
    requires Fits(cats, nn, order, plan) && Merging(s, plan, Progress({}, {}, {}, {}, {}))
    ensures Phase1(cats, nn, order, s, plan, [], Progress({}, {}, {}, {}, {}), {}, [], 0, 0)
  {
    assert FinalIds([]) == {};
  }

  lemma NextKey(cats: map<Id, Category>, nn: string -> string, order: seq<Id>,
                keys: seq<string>, byKey: map<string, seq<Id>>, i: nat)
    requires Lists(order, cats) && Grouped(cats, nn, order, keys, byKey) && i < |keys|
    ensures keys[i] !in keys[..i] && keys[..i + 1] == keys[..i] + [keys[i]]
    ensures keys[i] in byKey && byKey[keys[i]] != [] && byKey[keys[i]] == Bucket(cats, nn, order, keys[i])
  {
    assert keys[i] in keys;
  }

  /** Phase 1: merges every group and stamps the keepers that have to move. */
  method MergeGroups(db: Database, cats: map<Id, Category>, ghost s: Snapshot, ghost nn: string -> string,
                     ghost order: seq<Id>, ghost plan: Plan, keys: seq<string>, byKey: map<string, seq<Id>>)
    returns (ok: bool, finals: seq<FinalWrite>, merged: nat, skipped: nat, ghost g: Progress, ghost kept: set<Id>)
    requires Fits(cats, nn, order, plan) && CleanKeys(cats, nn) && Grouped(cats, nn, order, keys, byKey)
    requires GoodPlan(s, plan) && db.Current() == s
    modifies db
    ensures ok && Phase1(cats, nn, order, s, plan, keys, g, kept, finals, merged, skipped)
    ensures db.Current() == Stage(s, plan, g) && db.ConsistentSince(old(db.history))
  {
    ok, finals, merged, skipped := true, [], 0, 0;
    g, kept := Progress({}, {}, {}, {}, {}), {};
    NothingDone(s, plan);
    NothingVisited(cats, nn, order, s, plan);
    assert keys[..0] == [];
    for i := 0 to |keys|
      invariant ok && Phase1(cats, nn, order, s, plan, keys[..i], g, kept, finals, merged, skipped)
      invariant db.Current() == Stage(s, plan, g) && db.ConsistentSince(old(db.history))
    {
      NextKey(cats, nn, order, keys, byKey, i);
      ok, finals, merged, skipped, g, kept :=
        VisitGroup(db, cats, s, nn, order, plan, keys[..i], g, kept, keys[i], byKey[keys[i]], finals, merged, skipped);
      if !ok { return; }
    }
    assert keys[..|keys|] == keys;
  }

  /** Every surviving row has the name and path its original path becomes. */
  ghost predicate RowsBecome(nn: string -> string, before: map<Id, Category>, after: map<Id, Category>) {
    forall c | c in after :: c in before && Becomes(nn, before[c].path, after[c].name, after[c].path)
  }

  lemma QuotientRowsBecome(s: Snapshot, nn: string -> string, order: seq<Id>)
    requires Lists(order, s.categories) && CleanNames(nn)
    ensures RowsBecome(nn, s.categories, Quotient(s, PlanOf(s.categories, nn, order)).categories)
  {
    forall c | c in s.categories
      ensures var path := NormalizePath(nn, s.categories[c].path);
        Becomes(nn, s.categories[c].path, LastSegment(path), path)
    {
      PathBecomes(nn, s.categories[c].path);
    }
  }

  /**
   * The whole script. It never fails, every state it writes is consistent, and it ends in the quotient
   * of the tables by equality of tenant and normalised path.
   */
  method Normalize(db: Database, order: seq<Id>, nn: string -> string) returns (result: Option<Summary>)
    requires Ready(db.Current(), nn, order)
    modifies db
    ensures db.Current() == Quotient(old(db.Current()), PlanOf(old(db.categories), nn, order))
    ensures CleanNames(nn) ==> RowsBecome(nn, old(db.categories), db.categories)
    ensures db.ConsistentSince(old(db.history))
    ensures result.Some?
    ensures var plan := PlanOf(old(db.categories), nn, order);
      && result.value.total == result.value.merged + result.value.updated + result.value.skipped == |order|
      && result.value.merged == |Duplicates(plan)|
      && Fits(old(db.categories), nn, order, plan)
      && result.value.skipped == |Skipped(old(db.categories), nn, order, plan)|
  {
    ghost var s := db.Current();
    ghost var plan := PlanOf(db.categories, nn, order);
    PlanFits(db.categories, nn, order);
    PlanIsGood(s, nn, order);
    var cats := db.categories;
    var keys, byKey := GroupRows(cats, nn, order);
    var ok, finals, merged, skipped, g, kept := MergeGroups(db, cats, s, nn, order, plan, keys, byKey);
    if !ok { return None; }
    AllCovered(cats, nn, order, plan, keys, byKey, g, kept);
    CountsAddUp(cats, order, plan, kept);
    KeptInPlace(s, nn, order, plan, g, kept);
    var updated;
    ok, updated := WriteFinals(db, s, plan, g, finals);
    if !ok { return None; }
    LastStageIsQuotient(s, plan, g.(finished := g.stamped));
    if CleanNames(nn) { QuotientRowsBecome(s, nn, order); }
    result := Some(Summary(|order|, updated, merged, skipped));
  }

  lemma KeptInPlace(s: Snapshot, nn: string -> string, order: seq<Id>, plan: Plan, g: Progress, kept: set<Id>)
    requires Fits(s.categories, nn, order, plan) && kept == Skipped(s.categories, nn, order, plan)
    requires g.stamped == Keepers(plan) - kept
    ensures forall k | k in Keepers(plan) - g.stamped ::
              s.categories[k].name == plan.name[k] && s.categories[k].path == plan.path[k]
  {
  }
}
