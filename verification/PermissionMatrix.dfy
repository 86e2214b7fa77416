/**
 * The permission matrix: a buffer of undecided changes over the server's overrides, and the list of
 * updates it saves.
 */
module PermissionMatrix {
  import opened Options

  datatype Tri = Default | Grant | Deny
  datatype PageKey = PageKey(name: string)

  /** The overrides stored for a user, at most one a page. */
  type Server = map<PageKey, bool>
  type Buffer = map<PageKey, Tri>

  datatype Override = Override(pageKey: PageKey, granted: bool)

  /** No value clears the override. */
  datatype Update = Update(pageKey: PageKey, granted: Option<bool>)

  function Base(server: Server, key: PageKey): Tri {
    if key !in server then Default else if server[key] then Grant else Deny
  }

  /** The decision the matrix shows for a page. */
  function Shown(server: Server, pending: Buffer, key: PageKey): Tri {
    if key in pending then pending[key] else Base(server, key)
  }

  // ----- The buffer -----

  datatype Choice = Toggle(key: PageKey, value: Tri) | Bulk(value: Tri) | Reset

  function Choose(server: Server, pages: seq<PageKey>, pending: Buffer, c: Choice): Buffer {
    match c
    case Toggle(key, value) => if value == Base(server, key) then pending - {key} else pending[key := value]
    case Bulk(value) => map key | key in pages && value != Base(server, key) :: value
    case Reset => map[]
  }

  function AfterChoices(server: Server, pages: seq<PageKey>, choices: seq<Choice>): Buffer {
    if choices == [] then map[]
    else Choose(server, pages, AfterChoices(server, pages, choices[..|choices| - 1]), choices[|choices| - 1])
  }

  /** The buffer never stores what the server has anyway. */
  ghost predicate Differs(server: Server, pending: Buffer) {
    forall key | key in pending :: pending[key] != Base(server, key)
  }

  lemma {:induction false} ChoicesNeverStoreBase(server: Server, pages: seq<PageKey>, choices: seq<Choice>)
    ensures Differs(server, AfterChoices(server, pages, choices))
  {
    if choices != [] {
      ChoicesNeverStoreBase(server, pages, choices[..|choices| - 1]);
    }
  }

  /** The last choice that concerns a page decides; a reset goes back to the server's decision. */
  function LastDecision(server: Server, pages: seq<PageKey>, choices: seq<Choice>, key: PageKey): Tri {
    if choices == [] then Base(server, key)
    else
      match choices[|choices| - 1]
      case Reset => Base(server, key)
      case Bulk(value) => if key in pages then value else Base(server, key)
      case Toggle(k, value) =>
        if k == key then value else LastDecision(server, pages, choices[..|choices| - 1], key)
  }

  /** What is shown is the last decision, whatever was chosen before. */
  lemma {:induction false} ShownIsLastDecision(server: Server, pages: seq<PageKey>, choices: seq<Choice>, key: PageKey)
    ensures Shown(server, AfterChoices(server, pages, choices), key) == LastDecision(server, pages, choices, key)
  {
    if choices != [] {
      ShownIsLastDecision(server, pages, choices[..|choices| - 1], key);
    }
  }

  /** The rows of the matrix only toggle pages of the catalogue. */
  ghost predicate OnPages(pages: seq<PageKey>, choices: seq<Choice>) {
    forall c | c in choices && c.Toggle? :: c.key in pages
  }

  /** The pages whose shown decision is not the server's. */
  function Changed(server: Server, pages: seq<PageKey>, pending: Buffer): set<PageKey> {
    set key | key in pages && Shown(server, pending, key) != Base(server, key)
  }

  lemma {:induction false} ChoicesStayOnPages(server: Server, pages: seq<PageKey>, choices: seq<Choice>)
    requires OnPages(pages, choices)
    ensures forall key | key in AfterChoices(server, pages, choices) :: key in pages
  {
    if choices != [] {
      assert choices[|choices| - 1] in choices;
      ChoicesStayOnPages(server, pages, choices[..|choices| - 1]);
    }
  }

  /** The pending count is the number of pages whose shown decision is not the server's. */
  lemma PendingCountsChangedPages(server: Server, pages: seq<PageKey>, choices: seq<Choice>)
    requires OnPages(pages, choices)
    ensures |AfterChoices(server, pages, choices)| == |Changed(server, pages, AfterChoices(server, pages, choices))|
  {
    var pending := AfterChoices(server, pages, choices);
    ChoicesNeverStoreBase(server, pages, choices);
    ChoicesStayOnPages(server, pages, choices);
    assert pending.Keys == Changed(server, pages, pending);
  }

  // ----- Saving -----

  function Applied(server: Server, u: Update): Server {
    if u.granted == None then server - {u.pageKey} else server[u.pageKey := u.granted.value]
  }

  /** The server applies the updates in turn. */
  function Apply(server: Server, updates: seq<Update>): Server {
    if updates == [] then server else Applied(Apply(server, updates[..|updates| - 1]), updates[|updates| - 1])
  }

  function UpdateFor(key: PageKey, tri: Tri): Update {
    Update(key, if tri == Default then None else Some(tri == Grant))
  }

  /** One update for every entry of the buffer, in any order. */
  ghost predicate Lists(updates: seq<Update>, pending: Buffer) {
    && |updates| == |pending|
    && (forall key | key in pending :: UpdateFor(key, pending[key]) in updates)
    && (forall u | u in updates :: u.pageKey in pending && u == UpdateFor(u.pageKey, pending[u.pageKey]))
  }

  lemma {:induction false} AppliedOverrides(server: Server, pending: Buffer, updates: seq<Update>, key: PageKey)
    requires forall u | u in updates :: u.pageKey in pending && u == UpdateFor(u.pageKey, pending[u.pageKey])
    ensures Base(Apply(server, updates), key)
      == if key in pending && UpdateFor(key, pending[key]) in updates then pending[key] else Base(server, key)
  {
    if updates != [] {
      var front, last := updates[..|updates| - 1], updates[|updates| - 1];
      assert updates == front + [last];
      AppliedOverrides(server, pending, front, key);
      assert last in updates;
    }
  }

  /** Saving makes the server decide what the matrix shows, on every page. */
  lemma SavingMakesItSo(server: Server, pending: Buffer, updates: seq<Update>, key: PageKey)
    requires Lists(updates, pending)
    ensures Base(Apply(server, updates), key) == Shown(server, pending, key)
  {
    AppliedOverrides(server, pending, updates, key);
  }

  /** The updates make the server decide what the matrix shows. */
  ghost predicate Realizes(server: Server, pending: Buffer, updates: seq<Update>) {
    forall key {:trigger Shown(server, pending, key)} ::
      Base(Apply(server, updates), key) == Shown(server, pending, key)
  }

  function KeysOf(updates: seq<Update>): set<PageKey> {
    if updates == [] then {} else KeysOf(updates[..|updates| - 1]) + {updates[|updates| - 1].pageKey}
  }

  lemma {:induction false} OthersStay(server: Server, updates: seq<Update>, key: PageKey)
    ensures Base(Apply(server, updates), key) == Base(server, key) || key in KeysOf(updates)
  {
    if updates != [] {
      OthersStay(server, updates[..|updates| - 1], key);
    }
  }

  lemma {:induction false} FewKeys(updates: seq<Update>)
    ensures |KeysOf(updates)| <= |updates|
  {
    if updates != [] {
      FewKeys(updates[..|updates| - 1]);
    }
  }

  lemma Subset(a: set<PageKey>, b: set<PageKey>)
    requires a <= b
    ensures |a| <= |b|
  {
    assert b == a + (b - a);
  }

  /** No shorter list of updates would do: the buffer sends nothing that is not needed. */
  lemma NoUpdateIsWasted(server: Server, pending: Buffer, updates: seq<Update>)
    requires Differs(server, pending) && Realizes(server, pending, updates)
    ensures |pending| <= |updates|
  {
    forall key | key in pending ensures key in KeysOf(updates) {
      OthersStay(server, updates, key);
      assert Base(Apply(server, updates), key) == Shown(server, pending, key);
    }
    FewKeys(updates);
    Subset(pending.Keys, KeysOf(updates));
  }

  /**
   * The answer to a save empties the buffer, though rows can be toggled while it is on its way: the
   * matrix goes on showing the same exactly when the buffer is still the one that was sent.
   */
  lemma SaveKeepsShownExactlyWhenUntouched(server: Server, sent: Buffer, now: Buffer, updates: seq<Update>)
    requires Differs(server, sent) && Differs(server, now) && Lists(updates, sent)
    ensures (forall key :: Shown(Apply(server, updates), map[], key) == Shown(server, now, key)) <==> now == sent
  {
    forall key ensures Shown(Apply(server, updates), map[], key) == Shown(server, sent, key) {
      SavingMakesItSo(server, sent, updates, key);
    }
    if forall key :: Shown(server, sent, key) == Shown(server, now, key) {
      forall key ensures key in now <==> key in sent {
        assert Shown(server, sent, key) == Shown(server, now, key);
      }
      forall key | key in now ensures now[key] == sent[key] {
        assert Shown(server, sent, key) == Shown(server, now, key);
      }
    }
  }

  // ----- The result column -----

  /** The permission the matrix announces for a page. */
  predicate Announced(defaults: set<PageKey>, tri: Tri, key: PageKey) {
    match tri
    case Grant => true
    case Deny => false
    case Default => key in defaults
  }

  /** What the server stores, read from the listed overrides; a later one wins. */
  function Stored(overrides: seq<Override>): Server {
    if overrides == [] then map[]
    else
      var last := overrides[|overrides| - 1];
      Stored(overrides[..|overrides| - 1])[last.pageKey := last.granted]
  }

  /** The server's own computation: the role's defaults, each override adding or removing a page. */
  function Effective(defaults: set<PageKey>, overrides: seq<Override>): set<PageKey> {
    if overrides == [] then defaults
    else
      var before, last := Effective(defaults, overrides[..|overrides| - 1]), overrides[|overrides| - 1];
      if last.granted then before + {last.pageKey} else before - {last.pageKey}
  }

  /** The server's permissions are those the matrix announces for its decisions. */
  lemma {:induction false} AnnouncedIsEffective(defaults: set<PageKey>, overrides: seq<Override>, key: PageKey)
    ensures key in Effective(defaults, overrides) <==> Announced(defaults, Base(Stored(overrides), key), key)
  {
    if overrides != [] {
      AnnouncedIsEffective(defaults, overrides[..|overrides| - 1], key);
    }
  }

  /** After a save the user holds exactly the permissions the matrix announced before it. */
  lemma SavedIsEffective(server: Server, pending: Buffer, updates: seq<Update>, defaults: set<PageKey>,
                         overrides: seq<Override>, key: PageKey)
    requires Lists(updates, pending) && Stored(overrides) == Apply(server, updates)
    ensures key in Effective(defaults, overrides) <==> Announced(defaults, Shown(server, pending, key), key)
  {
    SavingMakesItSo(server, pending, updates, key);
    AnnouncedIsEffective(defaults, overrides, key);
  }

  // ----- The component -----

  /** The base decisions: the listed overrides, then every page of the catalogue. */
  method BaseTri(overrides: seq<Override>, pages: seq<PageKey>) returns (base: Buffer)
    ensures forall key :: (if key in base then base[key] else Default) == Base(Stored(overrides), key)
    ensures forall key | key in pages :: key in base
  {
    base := map[];
    for i := 0 to |overrides|
      invariant forall key :: key in base <==> key in Stored(overrides[..i])
      invariant forall key | key in base :: base[key] == Base(Stored(overrides[..i]), key)
    {
      assert overrides[..i + 1][..i] == overrides[..i];
      base := base[overrides[i].pageKey := if overrides[i].granted then Grant else Deny];
    }
    assert overrides[..|overrides|] == overrides;
    for i := 0 to |pages|
      invariant forall key :: (if key in base then base[key] else Default) == Base(Stored(overrides), key)
      invariant forall key | key in pages[..i] :: key in base
    {
      if pages[i] !in base { base := base[pages[i] := Default]; }
    }
  }

  class Matrix {
    const pages: seq<PageKey>
    var server: Server
    var pending: Buffer

    ghost predicate Valid()
      reads this
    {
      Differs(server, pending) && forall key | key in pending :: key in pages
    }

    constructor (server: Server, pages: seq<PageKey>)
      ensures Valid() && this.server == server && this.pages == pages && pending == map[]
    {
      this.server, this.pages, pending := server, pages, map[];
    }

    method SetTri(key: PageKey, value: Tri)
      requires Valid() && key in pages
      modifies this`pending
      ensures Valid() && pending == Choose(server, pages, old(pending), Toggle(key, value))
    {
      if value == Base(server, key) {
        pending := pending - {key};
      } else {
        pending := pending[key := value];
      }
    }

    method HandleBulk(value: Tri)
      requires Valid()
      modifies this`pending
      ensures Valid() && pending == Choose(server, pages, old(pending), Bulk(value))
    {
      var next: Buffer := map[];
      for i := 0 to |pages|
        invariant next == map key | key in pages[..i] && value != Base(server, key) :: value
      {
        if value != Base(server, pages[i]) { next := next[pages[i] := value]; }
      }
      pending := next;
    }

    method HandleReset()
      requires Valid()
      modifies this`pending
      ensures Valid() && pending == Choose(server, pages, old(pending), Reset)
    {
      pending := map[];
    }

    /** The updates to send; the buffer stays until the answer. */
    method HandleSave() returns (updates: seq<Update>)
      requires Valid()
      ensures Lists(updates, pending) && Realizes(server, pending, updates)
    {
      updates := [];
      var rest := pending.Keys;
      while rest != {}
        invariant rest <= pending.Keys && |updates| + |rest| == |pending|
        invariant forall key | key in pending.Keys - rest :: UpdateFor(key, pending[key]) in updates
        invariant forall u | u in updates :: u.pageKey in pending && u == UpdateFor(u.pageKey, pending[u.pageKey])
        decreases rest
      {
        var key :| key in rest;
        updates := updates + [UpdateFor(key, pending[key])];
        rest := rest - {key};
      }
      forall key ensures Base(Apply(server, updates), key) == Shown(server, pending, key) {
        SavingMakesItSo(server, pending, updates, key);
      }
    }

    /** The server's answer becomes the new base, and the buffer is emptied. */
    method SaveSucceeds(ghost sent: Buffer, updates: seq<Update>)
      requires Valid() && Differs(server, sent) && Lists(updates, sent)
      modifies this
      ensures Valid() && pending == map[]
      ensures forall key :: Shown(server, pending, key) == Shown(old(server), sent, key)
    {
      forall key ensures Base(Apply(server, updates), key) == Shown(server, sent, key) {
        SavingMakesItSo(server, sent, updates, key);
      }
      server, pending := Apply(server, updates), map[];
    }
  }
}
