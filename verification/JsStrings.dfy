/** The JavaScript string operations the modelled code uses. */
module JsStrings {

  /** `sep` occurs in `s` at position `i`. */
  predicate OccursAt(s: string, sep: string, i: nat) {
    i + |sep| <= |s| && s[i..i + |sep|] == sep
  }

  predicate Contains(s: string, sep: string) {
    exists i: nat | i <= |s| :: OccursAt(s, sep, i)
  }

  /** The first position at or after `from` where `sep` occurs, or -1. */
  function IndexOf(s: string, sep: string, from: nat): (i: int)
    requires from <= |s|
    ensures i == -1 || (from <= i && OccursAt(s, sep, i))
    ensures i == -1 ==> forall j: nat | from <= j <= |s| :: !OccursAt(s, sep, j)
    ensures i != -1 ==> forall j: nat | from <= j < i :: !OccursAt(s, sep, j)
    decreases |s| - from
  {
    if OccursAt(s, sep, from) then from
    else if from == |s| then -1
    else IndexOf(s, sep, from + 1)
  }

  /** JavaScript's `s.split(sep)` for a nonempty separator. */
  function Split(s: string, sep: string): (parts: seq<string>)
    requires sep != ""
    ensures parts != []
    decreases |s|
  {
    var i := IndexOf(s, sep, 0);
    if i == -1 then [s] else [s[..i]] + Split(s[i + |sep|..], sep)
  }

  function Join(parts: seq<string>, sep: string): string {
    if parts == [] then ""
    else if |parts| == 1 then parts[0]
    else parts[0] + sep + Join(parts[1..], sep)
  }

  predicate StartsWith(s: string, prefix: string) {
    prefix <= s
  }

  lemma JoinCons(part: string, rest: seq<string>, sep: string)
    requires rest != []
    ensures Join([part] + rest, sep) == part + sep + Join(rest, sep)
  {
    assert ([part] + rest)[1..] == rest;
  }

  lemma CutAt(s: string, sep: string, i: nat)
    requires OccursAt(s, sep, i)
    ensures s == s[..i] + sep + s[i + |sep|..]
  {
  }

  /** Joining with the separator undoes splitting by it. */
  lemma {:induction false} JoinSplit(s: string, sep: string)
    requires sep != ""
    ensures Join(Split(s, sep), sep) == s
    decreases |s|
  {
    var i := IndexOf(s, sep, 0);
    if i != -1 {
      JoinSplit(s[i + |sep|..], sep);
      JoinCons(s[..i], Split(s[i + |sep|..], sep), sep);
      CutAt(s, sep, i);
    }
  }

  /** No part of a split holds the separator. */
  lemma {:induction false} PartsAreWhole(s: string, sep: string, k: nat)
    requires sep != "" && k < |Split(s, sep)|
    ensures !Contains(Split(s, sep)[k], sep)
    decreases |s|
  {
    var i := IndexOf(s, sep, 0);
    if i != -1 && k > 0 {
      PartsAreWhole(s[i + |sep|..], sep, k - 1);
    } else if i != -1 {
      forall j: nat | j <= i ensures !OccursAt(s[..i], sep, j) {
        assert j + |sep| <= i ==> s[..i][j..j + |sep|] == s[j..j + |sep|] && !OccursAt(s, sep, j);
      }
    }
  }

  /** A text cut at a separator that occurs no earlier splits into its front and the parts of the rest. */
  lemma SplitAtFirst(front: string, sep: string, rest: string)
    requires sep != "" && IndexOf(front + sep + rest, sep, 0) == |front|
    ensures Split(front + sep + rest, sep) == [front] + Split(rest, sep)
  {
    var s := front + sep + rest;
    assert s[..|front|] == front && s[|front| + |sep|..] == rest;
  }

  /** The white space of `\s` and of `trim`. */
  predicate IsSpace(c: char) {
    || c == ' ' || '\t' <= c <= '\r' || c == '\U{00A0}' || c == '\U{1680}'
    || '\U{2000}' <= c <= '\U{200A}' || c == '\U{2028}' || c == '\U{2029}'
    || c == '\U{202F}' || c == '\U{205F}' || c == '\U{3000}' || c == '\U{FEFF}'
  }
}
