/** The category and product tables, and the writes the merge script sends to them. */
module CategoryTable {
  import opened Options

  datatype Id = Id(text: string)

  datatype Category = Category(tenant: string, name: string, path: string, parent: Option<Id>)

  datatype Snapshot = Snapshot(categories: map<Id, Category>, products: map<Id, Option<Id>>)

  predicate PathsDiffer(s: Snapshot, a: Id, b: Id)
    requires a in s.categories && b in s.categories
  {
    s.categories[a].tenant != s.categories[b].tenant || s.categories[a].path != s.categories[b].path
  }

  /** The unique index on (tenantId, path). */
  ghost predicate UniquePaths(s: Snapshot) {
    forall a, b {:trigger PathsDiffer(s, a, b)} | a in s.categories && b in s.categories && a != b ::
      PathsDiffer(s, a, b)
  }

  predicate Live(s: Snapshot, ref: Option<Id>) {
    ref.Some? ==> ref.value in s.categories
  }

  /** Every parent and every product's category is a live category. */
  ghost predicate NoDangling(s: Snapshot) {
    && (forall c {:trigger Live(s, s.categories[c].parent)} | c in s.categories :: Live(s, s.categories[c].parent))
    && (forall p {:trigger Live(s, s.products[p])} | p in s.products :: Live(s, s.products[p]))
  }

  ghost predicate Consistent(s: Snapshot) {
    UniquePaths(s) && NoDangling(s)
  }

  function Redirect(ref: Option<Id>, from: Id, to: Option<Id>): Option<Id> {
    if ref == Some(from) then to else ref
  }

  function WithProducts(s: Snapshot, from: Id, to: Option<Id>): Snapshot {
    s.(products := map p | p in s.products :: Redirect(s.products[p], from, to))
  }

  function WithParents(s: Snapshot, from: Id, to: Option<Id>): Snapshot {
    s.(categories := map c | c in s.categories ::
                       s.categories[c].(parent := Redirect(s.categories[c].parent, from, to)))
  }

  /** `product.updateMany({ categoryId: from } -> to)`; None when the foreign key is violated. */
  function RepointProducts(s: Snapshot, from: Id, to: Id): Option<Snapshot> {
    if to !in s.categories && exists p | p in s.products :: s.products[p] == Some(from) then None
    else Some(WithProducts(s, from, Some(to)))
  }

  /** `category.updateMany({ parentId: from } -> to)`; None when the foreign key is violated. */
  function RepointChildren(s: Snapshot, from: Id, to: Id): Option<Snapshot> {
    if to !in s.categories && exists c | c in s.categories :: s.categories[c].parent == Some(from) then None
    else Some(WithParents(s, from, Some(to)))
  }

  /** `category.delete`; both foreign keys are declared ON DELETE SET NULL. */
  function DeleteCategory(s: Snapshot, id: Id): Option<Snapshot> {
    if id !in s.categories then None
    else
      var cleared := WithParents(WithProducts(s, id, None), id, None);
      Some(cleared.(categories := map c | c in cleared.categories && c != id :: cleared.categories[c]))
  }

  predicate PathTaken(s: Snapshot, id: Id, path: string)
    requires id in s.categories
  {
    exists other | other in s.categories && other != id ::
      s.categories[other].tenant == s.categories[id].tenant && s.categories[other].path == path
  }

  /** `category.update({ name, path })`; None when the row is missing or the path is taken. */
  function RenameCategory(s: Snapshot, id: Id, name: string, path: string): Option<Snapshot> {
    if id !in s.categories || PathTaken(s, id, path) then None
    else Some(s.(categories := s.categories[id := s.categories[id].(name := name, path := path)]))
  }

  /** `category.update({ path })`. */
  function SetPath(s: Snapshot, id: Id, path: string): Option<Snapshot> {
    if id !in s.categories then None else RenameCategory(s, id, s.categories[id].name, path)
  }

  /** The two tables as the script sees them, with every state they went through. */
  class Database {
    var categories: map<Id, Category>
    var products: map<Id, Option<Id>>
    ghost var history: seq<Snapshot>

    function Current(): Snapshot
      reads this
    {
      Snapshot(categories, products)
    }

    /** The write `after` was executed on state `before`, or rejected and rolled back. */
    ghost predicate Executed(before: Snapshot, log: seq<Snapshot>, after: Option<Snapshot>, ok: bool)
      reads this
    {
      && ok == after.Some?
      && Current() == (if ok then after.value else before)
      && history == (if ok then log + [Current()] else log)
    }

    /** Every state since the history `log` was consistent. */
    ghost predicate ConsistentSince(log: seq<Snapshot>)
      reads this
    {
      log <= history && forall i | |log| <= i < |history| :: Consistent(history[i])
    }

    method Commit(after: Option<Snapshot>) returns (ok: bool)
      modifies this
      ensures Executed(old(Current()), old(history), after, ok)
      ensures (after.Some? ==> Consistent(after.value)) ==> ConsistentSince(old(history))
    {
      if after.Some? {
        categories, products := after.value.categories, after.value.products;
        history := history + [Current()];
      }
      ok := after.Some?;
    }
  }
}
