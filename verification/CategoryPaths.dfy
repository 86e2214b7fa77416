/** Category path strings: normalising a path, and the key that groups paths. */
module CategoryPaths {
  import opened JsStrings

  function NormalizeSegments(normalizeName: string -> string, segments: seq<string>): seq<string> {
    if segments == [] then []
    else
      var name := normalizeName(segments[0]);
      var rest := NormalizeSegments(normalizeName, segments[1..]);
      if name == "" then rest else [name] + rest
  }

  function NormalizePath(normalizeName: string -> string, path: string): string {
    Join(NormalizeSegments(normalizeName, Split(path, ">")), " > ")
  }

  function LastSegment(path: string): string {
    var segments := Split(path, " > ");
    segments[|segments| - 1]
  }

  // ----- What normalising a path means -----

  /** Two paths, one below the other; an empty one counts for nothing. */
  function Below(p: string, q: string): string {
    if p == "" then q else if q == "" then p else p + " > " + q
  }

  /** No occurrence of a one-character separator before the first one in the text. */
  lemma FirstMark(front: string, rest: string)
    requires '>' !in front
    ensures Split(front + ">" + rest, ">") == [front] + Split(rest, ">")
  {
    var s := front + ">" + rest;
    assert OccursAt(s, ">", |front|);
    forall j: nat | j < |front| ensures !OccursAt(s, ">", j) {
      assert s[j] == front[j] && s[j..j + 1][0] == s[j];
    }
    SplitAtFirst(front, ">", rest);
  }

  lemma NoMark(s: string)
    requires '>' !in s
    ensures Split(s, ">") == [s]
  {
    forall j: nat | j <= |s| ensures !OccursAt(s, ">", j) {
      assert j < |s| ==> s[j..j + 1][0] == s[j];
    }
  }

  /** The text before its first mark, and the text after it. */
  lemma CutAtMark(p: string) returns (front: string, rest: string)
    requires '>' in p
    ensures '>' !in front && p == front + ">" + rest
  {
    var i :| 0 <= i < |p| && p[i] == '>' && forall j | 0 <= j < i :: p[j] != '>' by { FirstMarkExists(p); }
    front, rest := p[..i], p[i + 1..];
  }

  lemma {:induction false} FirstMarkExists(p: string)
    requires '>' in p
    ensures exists i :: 0 <= i < |p| && p[i] == '>' && forall j | 0 <= j < i :: p[j] != '>'
  {
    if p[0] != '>' {
      FirstMarkExists(p[1..]);
      var i :| 0 <= i < |p[1..]| && p[1..][i] == '>' && forall j | 0 <= j < i :: p[1..][j] != '>';
      assert p[i + 1] == '>' && forall j | 0 < j < i + 1 :: p[j] == p[1..][j - 1];
    }
  }

  lemma Regroup(front: string, rest: string, q: string)
    ensures front + ">" + rest + ">" + q == front + ">" + (rest + ">" + q)
  {
  }

  lemma {:induction false} SplitAtMark(p: string, q: string)
    ensures Split(p + ">" + q, ">") == Split(p, ">") + Split(q, ">")
    decreases |p|
  {
    if '>' in p {
      var front, rest := CutAtMark(p);
      SplitAtMark(rest, q);
      Regroup(front, rest, q);
      calc {
        Split(p + ">" + q, ">");
        Split(front + ">" + (rest + ">" + q), ">");
        { FirstMark(front, rest + ">" + q); }
        [front] + (Split(rest, ">") + Split(q, ">"));
        ([front] + Split(rest, ">")) + Split(q, ">");
        { FirstMark(front, rest); }
        Split(p, ">") + Split(q, ">");
      }
    } else {
      NoMark(p);
      FirstMark(p, q);
    }
  }

  lemma {:induction false} NormalizeParts(nn: string -> string, a: seq<string>, b: seq<string>)
    ensures NormalizeSegments(nn, a + b) == NormalizeSegments(nn, a) + NormalizeSegments(nn, b)
  {
    if a == [] {
      assert a + b == b;
    } else {
      assert (a + b)[0] == a[0] && (a + b)[1..] == a[1..] + b;
      NormalizeParts(nn, a[1..], b);
    }
  }

  lemma {:induction false} NamesAreNotEmpty(nn: string -> string, segments: seq<string>)
    ensures "" !in NormalizeSegments(nn, segments)
  {
    if segments != [] {
      NamesAreNotEmpty(nn, segments[1..]);
    }
  }

  lemma {:induction false} JoinNames(a: seq<string>, b: seq<string>)
    requires "" !in a && "" !in b
    ensures Join(a + b, " > ") == Below(Join(a, " > "), Join(b, " > "))
    ensures Join(a, " > ") == "" <==> a == []
  {
    if a == [] {
      assert a + b == b;
    } else if a[1..] == [] {
      assert (a + b)[1..] == b;
      assert Join(b, " > ") == "" <==> b == [];
    } else {
      assert (a + b)[0] == a[0] && (a + b)[1..] == a[1..] + b;
      JoinNames(a[1..], b);
    }
  }

  /** The normalised form of one path below another is the one's below the other's. */
  lemma PathBelowPath(nn: string -> string, p: string, q: string)
    ensures NormalizePath(nn, p + ">" + q) == Below(NormalizePath(nn, p), NormalizePath(nn, q))
  {
    var a, b := Split(p, ">"), Split(q, ">");
    SplitAtMark(p, q);
    NormalizeParts(nn, a, b);
    NamesAreNotEmpty(nn, a);
    NamesAreNotEmpty(nn, b);
    JoinNames(NormalizeSegments(nn, a), NormalizeSegments(nn, b));
  }

  /** A path of one segment is normalised as its name is. */
  lemma OneSegmentPath(nn: string -> string, path: string)
    requires '>' !in path
    ensures NormalizePath(nn, path) == nn(path)
  {
    NoMark(path);
    assert NormalizeSegments(nn, [path]) == if nn(path) == "" then [] else [nn(path)];
  }

  /** Casing and trimming a name make no `>` of anything else. */
  ghost predicate CleanNames(nn: string -> string) {
    forall s :: '>' !in s ==> '>' !in nn(s)
  }

  ghost predicate NoMarks(parts: seq<string>) {
    forall k | 0 <= k < |parts| :: '>' !in parts[k]
  }

  lemma FirstSeparator(front: string, rest: string)
    requires '>' !in front
    ensures Split(front + " > " + rest, " > ") == [front] + Split(rest, " > ")
  {
    var s := front + " > " + rest;
    assert OccursAt(s, " > ", |front|) by { assert s[|front|..|front| + 3] == " > "; }
    forall j: nat | j < |front| ensures !OccursAt(s, " > ", j) {
      assert s[j + 1] != '>';
      assert s[j..j + 3][1] == s[j + 1];
    }
    SplitAtFirst(front, " > ", rest);
  }

  lemma NoSeparator(s: string)
    requires '>' !in s
    ensures Split(s, " > ") == [s]
  {
    forall j: nat | j <= |s| ensures !OccursAt(s, " > ", j) {
      assert j + 3 <= |s| ==> s[j..j + 3][1] == s[j + 1];
    }
  }

  /** Splitting undoes joining. */
  lemma {:induction false} SplitJoin(parts: seq<string>)
    requires parts != [] && NoMarks(parts)
    ensures Split(Join(parts, " > "), " > ") == parts
  {
    if |parts| == 1 {
      NoSeparator(parts[0]);
    } else {
      SplitJoin(parts[1..]);
      FirstSeparator(parts[0], Join(parts[1..], " > "));
    }
  }

  /** The last segment of a path made of names is the last name. */
  lemma LastOfNames(parts: seq<string>)
    requires parts != [] && NoMarks(parts)
    ensures LastSegment(Join(parts, " > ")) == parts[|parts| - 1]
  {
    SplitJoin(parts);
  }

  lemma {:induction false} NamesHaveNoMarks(nn: string -> string, path: string)
    requires CleanNames(nn)
    ensures NoMarks(NormalizeSegments(nn, Split(path, ">")))
    decreases |path|
  {
    if '>' in path {
      var front, rest := CutAtMark(path);
      FirstMark(front, rest);
      NamesHaveNoMarks(nn, rest);
    } else {
      NoMark(path);
    }
  }

  /** One more segment adds its name, if it has one. */
  lemma NamesBelow(nn: string -> string, p: string, q: string)
    requires '>' !in q
    ensures var before, after := NormalizeSegments(nn, Split(p, ">")), NormalizeSegments(nn, Split(p + ">" + q, ">"));
      after == if nn(q) == "" then before else before + [nn(q)]
  {
    SplitAtMark(p, q);
    NoMark(q);
    NormalizeParts(nn, Split(p, ">"), [q]);
  }

  /** The last segment of a normalised path is the name of the last segment that has one. */
  lemma LastSegmentIsName(nn: string -> string, p: string, q: string)
    requires CleanNames(nn) && '>' !in q
    ensures LastSegment(NormalizePath(nn, p + ">" + q))
         == if nn(q) == "" then LastSegment(NormalizePath(nn, p)) else nn(q)
  {
    NamesBelow(nn, p, q);
    NamesHaveNoMarks(nn, p + ">" + q);
    if nn(q) != "" {
      LastOfNames(NormalizeSegments(nn, Split(p + ">" + q, ">")));
    }
  }

  /** `original` is the segment `q`, below the path `p`. */
  predicate Ends(original: string, p: string, q: string) {
    '>' !in q && original == p + ">" + q
  }

  /** `path` and `name` are what becomes of a category whose path is `p > q` with last segment `q`. */
  ghost predicate BecomesBelow(nn: string -> string, p: string, q: string, name: string, path: string) {
    && path == Below(NormalizePath(nn, p), nn(q))
    && name == if nn(q) == "" then LastSegment(NormalizePath(nn, p)) else nn(q)
  }

  /** A path of one segment becomes its name; one of more becomes the rest's form with the last name below it. */
  ghost predicate Becomes(nn: string -> string, original: string, name: string, path: string) {
    && ('>' !in original ==> name == nn(original) && path == nn(original))
    && forall p, q {:trigger Ends(original, p, q)} :: Ends(original, p, q) ==> BecomesBelow(nn, p, q, name, path)
  }

  lemma PathBecomes(nn: string -> string, original: string)
    requires CleanNames(nn)
    ensures Becomes(nn, original, LastSegment(NormalizePath(nn, original)), NormalizePath(nn, original))
  {
    var path := NormalizePath(nn, original);
    if '>' !in original {
      OneSegmentPath(nn, original);
      NoSeparator(nn(original));
    }
    forall p, q | Ends(original, p, q) ensures BecomesBelow(nn, p, q, LastSegment(path), path) {
      PathBelowPath(nn, p, q);
      OneSegmentPath(nn, q);
      LastSegmentIsName(nn, p, q);
    }
  }

  const KEY_SEPARATOR := "::"

  function GroupKey(tenant: string, path: string): string {
    tenant + KEY_SEPARATOR + path
  }

  /** The path the script reads back from a key: the second part of the split, if there is one. */
  function KeyPath(key: string): string {
    var parts := Split(key, KEY_SEPARATOR);
    if |parts| > 1 then parts[1] else ""
  }

  /** A tenant id in which the separator of the key cannot start. */
  predicate CleanTenant(tenant: string) {
    !Contains(tenant, KEY_SEPARATOR) && (tenant == "" || tenant[|tenant| - 1] != ':')
  }

  lemma SeparatorAfterTenant(tenant: string, path: string)
    requires CleanTenant(tenant)
    ensures IndexOf(GroupKey(tenant, path), KEY_SEPARATOR, 0) == |tenant|
  {
    var key := GroupKey(tenant, path);
    assert OccursAt(key, KEY_SEPARATOR, |tenant|);
    forall j: nat | j < |tenant| ensures !OccursAt(key, KEY_SEPARATOR, j) {
      assert j + 2 <= |tenant| ==> tenant[j..j + 2] == key[j..j + 2] && !OccursAt(tenant, KEY_SEPARATOR, j);
      assert j + 2 > |tenant| ==> key[j..j + 2][0] == tenant[|tenant| - 1];
    }
  }

  /** The script reads a path back from its key unchanged exactly when the path has no separator. */
  lemma KeyPathRoundTrip(tenant: string, path: string)
    requires CleanTenant(tenant)
    ensures KeyPath(GroupKey(tenant, path)) == path <==> !Contains(path, KEY_SEPARATOR)
  {
    var key := GroupKey(tenant, path);
    SeparatorAfterTenant(tenant, path);
    assert key[|tenant| + 2..] == path;
    assert Split(key, KEY_SEPARATOR) == [key[..|tenant|]] + Split(path, KEY_SEPARATOR);
    assert KeyPath(key) == Split(path, KEY_SEPARATOR)[0];
    var i := IndexOf(path, KEY_SEPARATOR, 0);
    if i != -1 {
      assert |path[..i]| < |path|;
    }
  }

  /** Keys identify their (tenant, path) pair. */
  lemma GroupKeyInjective(tenant: string, path: string, tenant': string, path': string)
    requires CleanTenant(tenant) && CleanTenant(tenant')
    ensures GroupKey(tenant, path) == GroupKey(tenant', path') <==> tenant == tenant' && path == path'
  {
    SeparatorAfterTenant(tenant, path);
    SeparatorAfterTenant(tenant', path');
    var key, key' := GroupKey(tenant, path), GroupKey(tenant', path');
    assert key[..|tenant|] == tenant && key[|tenant| + 2..] == path;
    assert key'[..|tenant'|] == tenant' && key'[|tenant'| + 2..] == path';
  }
}
