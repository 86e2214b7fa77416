/**
 * The popup texts' mini-markdown: links, bold and line breaks become nodes. The regular expressions
 * of the code match in one way only from a given start, so they are scanners here.
 */
module RichText {
  import opened JsStrings
  import opened Options

  datatype Node =
    | Text(text: string)
    | LineBreak
    | Strong(children: seq<Node>)
    | Anchor(href: string, external: bool, children: seq<Node>)

  // ----- Lists built piece by piece -----

  function FlatMap<A, B>(f: A -> seq<B>, s: seq<A>): seq<B> {
    if s == [] then [] else f(s[0]) + FlatMap(f, s[1..])
  }

  lemma {:induction false} FlatMapConcat<A, B>(f: A -> seq<B>, a: seq<A>, b: seq<A>)
    ensures FlatMap(f, a + b) == FlatMap(f, a) + FlatMap(f, b)
  {
    if a == [] {
      assert a + b == b;
    } else {
      FlatMapConcat(f, a[1..], b);
      assert (a + b)[0] == a[0] && (a + b)[1..] == a[1..] + b;
      Associates(f(a[0]), FlatMap(f, a[1..]), FlatMap(f, b));
    }
  }

  lemma FlatMapSingle<A, B>(f: A -> seq<B>, x: A)
    ensures FlatMap(f, [x]) == f(x)
  {
    assert [x][1..] == [];
  }

  lemma FlatMapThree<A, B>(f: A -> seq<B>, a: seq<A>, b: seq<A>, c: seq<A>)
    ensures FlatMap(f, a + (b + c)) == FlatMap(f, a) + (FlatMap(f, b) + FlatMap(f, c))
  {
    FlatMapConcat(f, a, b + c);
    FlatMapConcat(f, b, c);
  }

  lemma Associates<T>(a: seq<T>, b: seq<T>, c: seq<T>)
    ensures a + (b + c) == (a + b) + c
  {
  }

  // ----- Scanners -----

  datatype Class = NotBracket | UrlChar | NotStar

  predicate InClass(k: Class, c: char) {
    match k
    case NotBracket => c != ']'
    case UrlChar => c != ')' && !IsSpace(c)
    case NotStar => c != '*'
  }

  ghost predicate AllIn(k: Class, s: string) {
    forall i | 0 <= i < |s| :: InClass(k, s[i])
  }

  /** The end of the longest run of class `k` from `from`. */
  function RunEnd(k: Class, text: string, from: nat): (end: nat)
    requires from <= |text|
    ensures from <= end <= |text|
    decreases |text| - from
  {
    if from == |text| || !InClass(k, text[from]) then from else RunEnd(k, text, from + 1)
  }

  lemma {:induction false} RunEndStops(k: Class, text: string, from: nat)
    requires from <= |text|
    ensures AllIn(k, text[from..RunEnd(k, text, from)])
    ensures RunEnd(k, text, from) < |text| ==> !InClass(k, text[RunEnd(k, text, from)])
    decreases |text| - from
  {
    if from < |text| && InClass(k, text[from]) {
      RunEndStops(k, text, from + 1);
    }
  }

  /** A link `[label](url)`: its start, the end of its label, and the end of its url. */
  datatype Link = Link(start: nat, labelEnd: nat, urlEnd: nat)

  predicate Fits(text: string, m: Link) {
    m.start + 1 < m.labelEnd && m.labelEnd + 2 < m.urlEnd < |text|
  }

  function Label(text: string, m: Link): string
    requires Fits(text, m)
  {
    text[m.start + 1..m.labelEnd]
  }

  function Url(text: string, m: Link): string
    requires Fits(text, m)
  {
    text[m.labelEnd + 2..m.urlEnd]
  }

  /** The pattern `\[([^\]]+)\]\(([^)\s]+)\)` read at position `i`. */
  function LinkAt(text: string, i: nat): (m: Option<Link>)
    requires i <= |text|
    ensures m.Some? ==> Fits(text, m.value) && m.value.start == i
  {
    if i == |text| || text[i] != '[' then None
    else
      var labelEnd := RunEnd(NotBracket, text, i + 1);
      if labelEnd == i + 1 || labelEnd + 1 >= |text| || text[labelEnd + 1] != '(' then None
      else
        var urlEnd := RunEnd(UrlChar, text, labelEnd + 2);
        if urlEnd == labelEnd + 2 || urlEnd == |text| || text[urlEnd] != ')' then None
        else Some(Link(i, labelEnd, urlEnd))
  }

  /** What the pattern means: the text continues at `i` with a link of this label and url. */
  ghost predicate IsLink(text: string, i: nat, linkText: string, url: string) {
    && linkText != "" && AllIn(NotBracket, linkText)
    && url != "" && AllIn(UrlChar, url)
    && OccursAt(text, "[" + linkText + "](" + url + ")", i)
  }

  lemma RunEndIs(k: Class, text: string, from: nat, run: string)
    requires OccursAt(text, run, from) && AllIn(k, run)
    requires from + |run| < |text| && !InClass(k, text[from + |run|])
    ensures RunEnd(k, text, from) == from + |run|
  {
    var end := RunEnd(k, text, from);
    RunEndStops(k, text, from);
    forall j | from <= j < from + |run| ensures InClass(k, text[j]) {
      assert text[from..from + |run|][j - from] == run[j - from];
    }
    forall j | from <= j < end ensures InClass(k, text[j]) {
      assert text[from..end][j - from] == text[j];
    }
  }

  /** An occurrence of a concatenation is an occurrence of each part in turn. */
  lemma OccursInTurn(text: string, a: string, b: string, i: nat)
    ensures OccursAt(text, a + b, i) <==> OccursAt(text, a, i) && OccursAt(text, b, i + |a|)
  {
    if OccursAt(text, a + b, i) {
      assert text[i..i + |a + b|][..|a|] == text[i..i + |a|];
      assert text[i..i + |a + b|][|a|..] == text[i + |a|..i + |a| + |b|];
    }
    if OccursAt(text, a, i) && OccursAt(text, b, i + |a|) {
      assert text[i..i + |a + b|] == text[i..i + |a|] + text[i + |a|..i + |a| + |b|];
    }
  }

  lemma OccursInFive(text: string, linkText: string, url: string, i: nat)
    ensures OccursAt(text, "[" + linkText + "](" + url + ")", i) <==>
      && OccursAt(text, "[", i) && OccursAt(text, linkText, i + 1) && OccursAt(text, "](", i + 1 + |linkText|)
      && OccursAt(text, url, i + |linkText| + 3) && OccursAt(text, ")", i + |linkText| + 3 + |url|)
  {
    OccursInTurn(text, "[" + linkText + "](" + url, ")", i);
    OccursInTurn(text, "[" + linkText + "](", url, i);
    OccursInTurn(text, "[" + linkText, "](", i);
    OccursInTurn(text, "[", linkText, i);
  }

  /** What occurs in a slice of a text occurs in the text. */
  lemma OccursInSlice(text: string, from: nat, end: nat, part: string, i: nat)
    requires from <= end <= |text| && OccursAt(text[from..end], part, i)
    ensures OccursAt(text, part, from + i)
  {
    var slice := text[from..end];
    forall k | 0 <= k < |part| ensures text[from + i..from + i + |part|][k] == part[k] {
      assert slice[i..i + |part|][k] == slice[i + k] == text[from + i + k];
    }
  }

  lemma CharOccurs(text: string, part: string, i: nat, k: nat)
    requires OccursAt(text, part, i) && k < |part|
    ensures text[i + k] == part[k]
  {
    assert text[i..i + |part|][k] == text[i + k];
  }

  /** The scanner finds exactly the links the pattern describes, with that label and url. */
  lemma LinkAtMeansIsLink(text: string, i: nat, linkText: string, url: string)
    requires i <= |text|
    ensures IsLink(text, i, linkText, url) <==>
      LinkAt(text, i).Some? && Label(text, LinkAt(text, i).value) == linkText && Url(text, LinkAt(text, i).value) == url
  {
    if IsLink(text, i, linkText, url) {
      PatternIsFound(text, i, linkText, url);
    }
    if LinkAt(text, i).Some? {
      FoundIsPattern(text, i);
    }
  }

  /** Where the brackets of a link stand, and what stands between them. */
  lemma PatternLayout(text: string, i: nat, linkText: string, url: string)
    requires OccursAt(text, "[" + linkText + "](" + url + ")", i)
    ensures var e, u := i + 1 + |linkText|, i + |linkText| + 3 + |url|;
      && u < |text| && text[i] == '[' && text[e] == ']' && text[e + 1] == '(' && text[u] == ')'
      && OccursAt(text, linkText, i + 1) && OccursAt(text, url, e + 2)
  {
    OccursInFive(text, linkText, url, i);
    var e, u := i + 1 + |linkText|, i + |linkText| + 3 + |url|;
    CharOccurs(text, "[", i, 0);
    CharOccurs(text, "](", e, 0);
    CharOccurs(text, "](", e, 1);
    CharOccurs(text, ")", u, 0);
  }

  lemma PatternIsFound(text: string, i: nat, linkText: string, url: string)
    requires i <= |text| && IsLink(text, i, linkText, url)
    ensures LinkAt(text, i) == Some(Link(i, i + 1 + |linkText|, i + |linkText| + 3 + |url|))
    ensures Label(text, LinkAt(text, i).value) == linkText && Url(text, LinkAt(text, i).value) == url
  {
    PatternLayout(text, i, linkText, url);
    RunEndIs(NotBracket, text, i + 1, linkText);
    RunEndIs(UrlChar, text, i + |linkText| + 3, url);
  }

  lemma FoundIsPattern(text: string, i: nat)
    requires i <= |text| && LinkAt(text, i).Some?
    ensures var m := LinkAt(text, i).value; IsLink(text, i, Label(text, m), Url(text, m))
  {
    var m := LinkAt(text, i).value;
    RunEndStops(NotBracket, text, i + 1);
    RunEndStops(UrlChar, text, m.labelEnd + 2);
    OccursInFive(text, Label(text, m), Url(text, m), i);
  }

  /** The leftmost link at or after `from`: what `exec` returns. */
  function NextLink(text: string, from: nat): (m: Option<Link>)
    requires from <= |text|
    ensures m.Some? ==> Fits(text, m.value) && from <= m.value.start
    decreases |text| - from
  {
    if LinkAt(text, from).Some? then LinkAt(text, from)
    else if from == |text| then None
    else NextLink(text, from + 1)
  }

  lemma {:induction false} NextLinkIsLink(text: string, from: nat)
    requires from <= |text| && NextLink(text, from).Some?
    ensures LinkAt(text, NextLink(text, from).value.start) == NextLink(text, from)
    decreases |text| - from
  {
    if LinkAt(text, from) == None {
      NextLinkIsLink(text, from + 1);
    }
  }

  /** No link starts between `from` and the one `exec` returns, or anywhere when it returns none. */
  lemma {:induction false} NextLinkIsLeftmost(text: string, from: nat, j: nat)
    requires from <= j <= |text| && (NextLink(text, from).Some? ==> j < NextLink(text, from).value.start)
    ensures LinkAt(text, j) == None
    decreases |text| - from
  {
    if from < j {
      NextLinkIsLeftmost(text, from + 1, j);
    }
  }

  /** The end of `**bold**` read at position `i`; the pattern is `\*\*[^*]+\*\*`. */
  function BoldAt(text: string, i: nat): (end: Option<nat>)
    requires i <= |text|
    ensures end.Some? ==> i + 4 < end.value <= |text|
  {
    if !OccursAt(text, "**", i) then None
    else
      var e := RunEnd(NotStar, text, i + 2);
      if e == i + 2 || !OccursAt(text, "**", e) then None else Some(e + 2)
  }

  /** What the pattern means: the text continues at `i` with this text between double stars. */
  ghost predicate IsBoldText(text: string, i: nat, inner: string) {
    inner != "" && AllIn(NotStar, inner) && OccursAt(text, "**" + inner + "**", i)
  }

  lemma OccursInThree(text: string, inner: string, i: nat)
    ensures OccursAt(text, "**" + inner + "**", i) <==>
      OccursAt(text, "**", i) && OccursAt(text, inner, i + 2) && OccursAt(text, "**", i + 2 + |inner|)
  {
    OccursInTurn(text, "**" + inner, "**", i);
    OccursInTurn(text, "**", inner, i);
  }

  /** The scanner finds exactly the bold texts the pattern describes. */
  lemma BoldAtMeansIsBold(text: string, i: nat, inner: string)
    requires i <= |text|
    ensures IsBoldText(text, i, inner) <==>
      BoldAt(text, i) == Some(i + 4 + |inner|) && text[i + 2..i + 2 + |inner|] == inner
  {
    OccursInThree(text, inner, i);
    if IsBoldText(text, i, inner) {
      CharOccurs(text, "**", i + 2 + |inner|, 0);
      RunEndIs(NotStar, text, i + 2, inner);
    }
    if BoldAt(text, i) == Some(i + 4 + |inner|) && text[i + 2..i + 2 + |inner|] == inner {
      RunEndStops(NotStar, text, i + 2);
    }
  }

  lemma BoldAtShape(text: string, i: nat)
    requires i <= |text| && BoldAt(text, i).Some?
    ensures var end := BoldAt(text, i).value; text[i..i + 2] == "**" && text[end - 2..end] == "**"
  {
  }

  function NextBold(text: string, from: nat): (m: Option<(nat, nat)>)
    requires from <= |text|
    ensures m.Some? ==> from <= m.value.0 < m.value.1 <= |text|
    decreases |text| - from
  {
    if BoldAt(text, from).Some? then Some((from, BoldAt(text, from).value))
    else if from == |text| then None
    else NextBold(text, from + 1)
  }

  lemma {:induction false} NextBoldIsBold(text: string, from: nat)
    requires from <= |text| && NextBold(text, from).Some?
    ensures var m := NextBold(text, from).value; BoldAt(text, m.0) == Some(m.1)
    decreases |text| - from
  {
    if BoldAt(text, from) == None {
      NextBoldIsBold(text, from + 1);
    }
  }

  lemma {:induction false} NextBoldIsLeftmost(text: string, from: nat, j: nat)
    requires from <= j <= |text| && (NextBold(text, from).Some? ==> j < NextBold(text, from).value.0)
    ensures BoldAt(text, j) == None
    decreases |text| - from
  {
    if from < j {
      NextBoldIsLeftmost(text, from + 1, j);
    }
  }

  lemma {:induction false} NoBoldFound(text: string, from: nat)
    requires from <= |text| && forall j | from <= j <= |text| :: BoldAt(text, j) == None
    ensures NextBold(text, from) == None
    decreases |text| - from
  {
    if from < |text| {
      NoBoldFound(text, from + 1);
    }
  }

  // ----- The nodes -----

  function Lower(c: char): char {
    if 'A' <= c <= 'Z' then (c as int + 32) as char else c
  }

  predicate StartsWithIgnoringCase(s: string, prefix: string) {
    |prefix| <= |s| && forall i | 0 <= i < |prefix| :: Lower(s[i]) == prefix[i]
  }

  predicate IsExternal(url: string) {
    StartsWithIgnoringCase(url, "http://") || StartsWithIgnoringCase(url, "https://")
  }

  predicate SafeHref(url: string) {
    IsExternal(url) || (StartsWith(url, "/") && !StartsWith(url, "//"))
  }

  /** `http://` or `https://`, in capitals or not. */
  predicate HttpAddress(url: string) {
    && |url| >= 7 && url[0] in "hH" && url[1] in "tT" && url[2] in "tT" && url[3] in "pP"
    && (url[4..7] == "://" || (|url| >= 8 && url[4] in "sS" && url[5..8] == "://"))
  }

  lemma LowerIs(c: char, lower: char)
    requires 'a' <= lower <= 'z'
    ensures Lower(c) == lower <==> c == lower || c == (lower as int - 32) as char
  {
  }

  lemma ExternalMeansHttp(url: string)
    ensures IsExternal(url) <==> HttpAddress(url)
  {
    forall i | 0 <= i < |url| ensures Lower(url[i]) == 'h' <==> url[i] in "hH" { LowerIs(url[i], 'h'); }
    forall i | 0 <= i < |url| ensures Lower(url[i]) == 't' <==> url[i] in "tT" { LowerIs(url[i], 't'); }
    forall i | 0 <= i < |url| ensures Lower(url[i]) == 'p' <==> url[i] in "pP" { LowerIs(url[i], 'p'); }
    forall i | 0 <= i < |url| ensures Lower(url[i]) == 's' <==> url[i] in "sS" { LowerIs(url[i], 's'); }
    assert |url| >= 7 ==> (url[4..7] == "://" <==> url[4] == ':' && url[5] == '/' && url[6] == '/');
    assert |url| >= 8 ==> (url[5..8] == "://" <==> url[5] == ':' && url[6] == '/' && url[7] == '/');
  }

  /** An address is safe exactly when it is one of these or starts with a single slash. */
  lemma SafeMeansHttpOrLocal(url: string)
    ensures SafeHref(url) <==> HttpAddress(url) || (url != "" && url[0] == '/' && (|url| == 1 || url[1] != '/'))
  {
    ExternalMeansHttp(url);
    assert StartsWith(url, "/") <==> url != "" && url[0] == '/';
    assert StartsWith(url, "//") <==> |url| >= 2 && url[0] == '/' && url[1] == '/';
  }

  /** Line breaks between the lines, text nodes for the nonempty ones. */
  function LineNode(line: string, first: bool): seq<Node> {
    (if first then [] else [LineBreak]) + (if line == "" then [] else [Text(line)])
  }

  function LineNodes(lines: seq<string>, first: bool): seq<Node> {
    if lines == [] then [] else LineNode(lines[0], first) + LineNodes(lines[1..], false)
  }

  function Breaks(text: string): seq<Node> {
    LineNodes(Split(text, "\n"), true)
  }

  /** `text.split(/(\*\*[^*]+\*\*)/)`: plain parts and bold parts in turn. */
  function SplitBold(text: string): seq<string>
    decreases |text|
  {
    var m := NextBold(text, 0);
    if m == None then [text]
    else [text[..m.value.0], text[m.value.0..m.value.1]] + SplitBold(text[m.value.1..])
  }

  predicate IsBold(part: string) {
    BoldAt(part, 0) == Some(|part|)
  }

  function PartNodes(part: string): seq<Node> {
    if part == "" then []
    else if IsBold(part) then [Strong(Breaks(part[2..|part| - 2]))]
    else Breaks(part)
  }

  function PartsNodes(parts: seq<string>): seq<Node> {
    FlatMap(PartNodes, parts)
  }

  function Bold(text: string): seq<Node> {
    PartsNodes(SplitBold(text))
  }

  /** The pieces the renderer cuts its text into. */
  datatype Token = Plain(text: string) | LinkToken(linkText: string, url: string)

  function Source(t: Token): string {
    match t
    case Plain(text) => text
    case LinkToken(linkText, url) => "[" + linkText + "](" + url + ")"
  }

  function PlainTokens(text: string, from: nat, end: nat): seq<Token>
    requires from <= end <= |text|
  {
    if from < end then [Plain(text[from..end])] else []
  }

  function FoundToken(text: string, m: Link): Token
    requires Fits(text, m)
  {
    LinkToken(Label(text, m), Url(text, m))
  }

  function Tokens(text: string, from: nat): seq<Token>
    requires from <= |text|
    decreases |text| - from
  {
    var m := NextLink(text, from);
    if m == None then PlainTokens(text, from, |text|)
    else PlainTokens(text, from, m.value.start) + ([FoundToken(text, m.value)] + Tokens(text, m.value.urlEnd + 1))
  }

  function TokenNodes(t: Token): seq<Node> {
    match t
    case Plain(text) => Bold(text)
    case LinkToken(linkText, url) =>
      if SafeHref(url) then [Anchor(url, IsExternal(url), Bold(linkText))] else Bold(linkText)
  }

  function Nodes(tokens: seq<Token>): seq<Node> {
    FlatMap(TokenNodes, tokens)
  }

  function Rich(text: string): seq<Node> {
    Nodes(Tokens(text, 0))
  }

  // ----- Printing nodes back -----

  function Print(nodes: seq<Node>): string {
    if nodes == [] then "" else PrintNode(nodes[0]) + Print(nodes[1..])
  }

  function PrintNode(node: Node): string {
    match node
    case Text(text) => text
    case LineBreak => "\n"
    case Strong(children) => "**" + Print(children) + "**"
    case Anchor(href, _, children) => "[" + Print(children) + "](" + href + ")"
  }

  lemma {:induction false} PrintConcat(a: seq<Node>, b: seq<Node>)
    ensures Print(a + b) == Print(a) + Print(b)
  {
    if a == [] {
      assert a + b == b;
    } else {
      PrintConcat(a[1..], b);
      assert (a + b)[0] == a[0] && (a + b)[1..] == a[1..] + b;
      Associates(PrintNode(a[0]), Print(a[1..]), Print(b));
    }
  }

  lemma PrintSingle(node: Node)
    ensures Print([node]) == PrintNode(node)
  {
    assert [node][1..] == [];
  }

  lemma PrintLine(line: string, first: bool)
    ensures Print(LineNode(line, first)) == (if first then "" else "\n") + line
  {
    PrintConcat(if first then [] else [LineBreak], if line == "" then [] else [Text(line)]);
    PrintSingle(LineBreak);
    PrintSingle(Text(line));
  }

  lemma {:induction false} PrintLines(lines: seq<string>, first: bool)
    requires lines != []
    ensures Print(LineNodes(lines, first)) == (if first then "" else "\n") + Join(lines, "\n")
  {
    var line := LineNode(lines[0], first);
    var rest := LineNodes(lines[1..], false);
    PrintLine(lines[0], first);
    PrintConcat(line, rest);
    if |lines| > 1 {
      PrintLines(lines[1..], false);
      Associates(if first then "" else "\n", lines[0], "\n" + Join(lines[1..], "\n"));
      Associates(lines[0], "\n", Join(lines[1..], "\n"));
    }
  }

  lemma PrintBreaks(text: string)
    ensures Print(Breaks(text)) == text
  {
    PrintLines(Split(text, "\n"), true);
    JoinSplit(text, "\n");
  }

  lemma BoldShape(part: string)
    requires IsBold(part)
    ensures |part| >= 4 && part == "**" + part[2..|part| - 2] + "**"
  {
    BoldAtShape(part, 0);
    assert part == part[0..2] + part[2..|part| - 2] + part[|part| - 2..|part|];
  }

  lemma PrintPart(part: string)
    ensures Print(PartNodes(part)) == part
  {
    if part == "" {
    } else if IsBold(part) {
      BoldShape(part);
      PrintBreaks(part[2..|part| - 2]);
      PrintSingle(Strong(Breaks(part[2..|part| - 2])));
    } else {
      PrintBreaks(part);
    }
  }

  function Concat(parts: seq<string>): string {
    if parts == [] then "" else parts[0] + Concat(parts[1..])
  }

  lemma {:induction false} PrintParts(parts: seq<string>)
    ensures Print(PartsNodes(parts)) == Concat(parts)
  {
    if parts != [] {
      PrintPart(parts[0]);
      PrintParts(parts[1..]);
      PrintConcat(PartNodes(parts[0]), PartsNodes(parts[1..]));
    }
  }

  /** Splitting by bold text loses nothing. */
  lemma {:induction false} BoldPartsTile(text: string)
    ensures Concat(SplitBold(text)) == text
    decreases |text|
  {
    var m := NextBold(text, 0);
    if m == None {
      assert SplitBold(text)[1..] == [];
    } else {
      var from, end := m.value.0, m.value.1;
      BoldPartsTile(text[end..]);
      ConcatTwo(text[..from], text[from..end], SplitBold(text[end..]));
      CutInThree(text, from, end);
    }
  }

  lemma CutInThree(text: string, from: nat, end: nat)
    requires from <= end <= |text|
    ensures text == text[..from] + (text[from..end] + text[end..])
  {
  }

  lemma ConcatTwo(a: string, b: string, parts: seq<string>)
    ensures Concat([a, b] + parts) == a + (b + Concat(parts))
  {
    assert ([a, b] + parts)[1..] == [b] + parts && ([b] + parts)[1..] == parts;
  }

  ghost predicate Alternates(parts: seq<string>) {
    && |parts| % 2 == 1
    && (forall i | 0 <= i < |parts| && i % 2 == 1 :: IsBold(parts[i]))
    && (forall i | 0 <= i < |parts| && i % 2 == 0 :: NextBold(parts[i], 0) == None)
  }

  /** Every second part is bold, and the others hold no bold text. */
  lemma {:induction false} BoldPartsAlternate(text: string)
    ensures Alternates(SplitBold(text))
    decreases |text|
  {
    var m := NextBold(text, 0);
    var parts := SplitBold(text);
    if m != None {
      var before, bold, rest := text[..m.value.0], text[m.value.0..m.value.1], text[m.value.1..];
      BoldPartsAlternate(rest);
      NextBoldIsBold(text, 0);
      BoldWithin(text, m.value.0, m.value.1);
      forall j | 0 <= j < m.value.0 ensures BoldAt(text, j) == None {
        NextBoldIsLeftmost(text, 0, j);
      }
      NoBoldBefore(text, m.value.0);
      AlternatesGrow(before, bold, SplitBold(rest));
    }
  }

  lemma AlternatesGrow(before: string, bold: string, parts: seq<string>)
    requires NextBold(before, 0) == None && IsBold(bold) && Alternates(parts)
    ensures Alternates([before, bold] + parts)
  {
    var all := [before, bold] + parts;
    forall i | 0 <= i < |all| && i % 2 == 1 ensures IsBold(all[i]) {
      assert i > 1 ==> all[i] == parts[i - 2];
    }
    forall i | 0 <= i < |all| && i % 2 == 0 ensures NextBold(all[i], 0) == None {
      assert i > 1 ==> all[i] == parts[i - 2];
    }
  }

  /** A bold text cut out of its surroundings is still bold. */
  lemma BoldWithin(text: string, from: nat, end: nat)
    requires from <= |text| && BoldAt(text, from) == Some(end)
    ensures IsBold(text[from..end])
  {
    var part, inner := text[from..end], text[from + 2..end - 2];
    BoldAtMeansIsBold(text, from, inner);
    assert part == "**" + inner + "**" && part[0..|part|] == part;
    BoldAtMeansIsBold(part, 0, inner);
  }

  /** A bold text found in the head of a text is found in the text. */
  lemma BoldInHead(text: string, cut: nat, j: nat)
    requires j <= cut <= |text| && BoldAt(text[..cut], j).Some?
    ensures BoldAt(text, j) == BoldAt(text[..cut], j)
  {
    var head, end := text[..cut], BoldAt(text[..cut], j).value;
    var inner := head[j + 2..end - 2];
    BoldAtMeansIsBold(head, j, inner);
    assert head == text[0..cut];
    OccursInSlice(text, 0, cut, "**" + inner + "**", j);
    BoldAtMeansIsBold(text, j, inner);
  }

  /** Cutting a text before its first bold text leaves none. */
  lemma NoBoldBefore(text: string, cut: nat)
    requires cut <= |text| && forall j | 0 <= j < cut :: BoldAt(text, j) == None
    ensures NextBold(text[..cut], 0) == None
  {
    forall j | 0 <= j <= cut ensures BoldAt(text[..cut], j) == None {
      if j < cut && BoldAt(text[..cut], j).Some? {
        BoldInHead(text, cut, j);
      }
    }
    NoBoldFound(text[..cut], 0);
  }

  lemma PrintBold(text: string)
    ensures Print(Bold(text)) == text
  {
    BoldPartsTile(text);
    PrintParts(SplitBold(text));
  }

  // ----- What the renderer guarantees -----

  function Sources(tokens: seq<Token>): string {
    FlatMap(Source, tokens)
  }

  lemma SourcePlain(text: string, from: nat, end: nat)
    requires from <= end <= |text|
    ensures Sources(PlainTokens(text, from, end)) == text[from..end]
  {
    FlatMapSingle(Source, Plain(text[from..end]));
  }

  lemma SourceLink(text: string, from: nat, m: Link)
    requires from <= |text| && NextLink(text, from) == Some(m)
    ensures Sources([FoundToken(text, m)]) == text[m.start..m.urlEnd + 1]
  {
    NextLinkIsLink(text, from);
    FlatMapSingle(Source, FoundToken(text, m));
    FoundIsPattern(text, m.start);
  }

  /** Plain slices and links tile the text. */
  lemma {:induction false} TokensTile(text: string, from: nat)
    requires from <= |text|
    ensures Sources(Tokens(text, from)) == text[from..]
    decreases |text| - from
  {
    var m := NextLink(text, from);
    if m == None {
      SourcePlain(text, from, |text|);
      assert text[from..] == text[from..|text|];
    } else {
      TokensTileAfter(text, from, m.value);
    }
  }

  lemma {:induction false} TokensTileAfter(text: string, from: nat, m: Link)
    requires from <= |text| && NextLink(text, from) == Some(m)
    ensures Sources(Tokens(text, from)) == text[from..]
    decreases |text| - from, 0
  {
    var next := m.urlEnd + 1;
    TokensTile(text, next);
    SourcePlain(text, from, m.start);
    SourceLink(text, from, m);
    TokensUnfold(Source, text, from, m);
    CutRestInThree(text, from, m.start, next);
  }

  lemma TokensUnfold<B>(f: Token -> seq<B>, text: string, from: nat, m: Link)
    requires from <= |text| && NextLink(text, from) == Some(m)
    ensures FlatMap(f, Tokens(text, from))
         == FlatMap(f, PlainTokens(text, from, m.start))
            + (FlatMap(f, [FoundToken(text, m)]) + FlatMap(f, Tokens(text, m.urlEnd + 1)))
  {
    FlatMapThree(f, PlainTokens(text, from, m.start), [FoundToken(text, m)], Tokens(text, m.urlEnd + 1));
  }

  lemma CutRestInThree(text: string, from: nat, a: nat, b: nat)
    requires from <= a <= b <= |text|
    ensures text[from..] == text[from..a] + (text[a..b] + text[b..])
  {
  }

  /** What is printed back for a token: an unsafe link is reduced to its label. */
  function Reprint(t: Token): string {
    if t.LinkToken? && !SafeHref(t.url) then t.linkText else Source(t)
  }

  function Reprints(tokens: seq<Token>): string {
    FlatMap(Reprint, tokens)
  }

  lemma PrintToken(t: Token)
    ensures Print(TokenNodes(t)) == Reprint(t)
  {
    match t
    case Plain(text) => PrintBold(text);
    case LinkToken(linkText, url) =>
      PrintBold(linkText);
      PrintSingle(Anchor(url, IsExternal(url), Bold(linkText)));
  }

  /** Printing the nodes back gives the text, with unsafe links reduced to their labels. */
  lemma {:induction false} PrintNodes(tokens: seq<Token>)
    ensures Print(Nodes(tokens)) == Reprints(tokens)
  {
    if tokens != [] {
      PrintToken(tokens[0]);
      PrintNodes(tokens[1..]);
      PrintConcat(TokenNodes(tokens[0]), Nodes(tokens[1..]));
    }
  }

  predicate LinksSafe(tokens: seq<Token>) {
    forall t | t in tokens :: t.LinkToken? ==> SafeHref(t.url)
  }

  lemma {:induction false} ReprintShrinks(tokens: seq<Token>)
    ensures |Reprints(tokens)| <= |Sources(tokens)|
    ensures if LinksSafe(tokens) then Reprints(tokens) == Sources(tokens) else |Reprints(tokens)| < |Sources(tokens)|
  {
    if tokens != [] {
      ReprintShrinks(tokens[1..]);
      assert tokens == [tokens[0]] + tokens[1..];
      assert LinksSafe(tokens) <==> LinksSafe([tokens[0]]) && LinksSafe(tokens[1..]);
      assert LinksSafe([tokens[0]]) <==> Reprint(tokens[0]) == Source(tokens[0]);
    }
  }

  /** Printing the rendered nodes gives the original text back exactly when every link is safe. */
  lemma RoundTripExactlyWhenLinksSafe(text: string)
    ensures Print(Rich(text)) == text <==> LinksSafe(Tokens(text, 0))
  {
    PrintNodes(Tokens(text, 0));
    TokensTile(text, 0);
    ReprintShrinks(Tokens(text, 0));
    assert text[0..] == text;
  }

  /** Every anchor points to a safe address, says truly whether it is external, and holds no anchor. */
  predicate AnchorsSafe(nodes: seq<Node>, allowed: bool)
    decreases nodes
  {
    nodes == [] || (AnchorSafe(nodes[0], allowed) && AnchorsSafe(nodes[1..], allowed))
  }

  predicate AnchorSafe(node: Node, allowed: bool)
    decreases node
  {
    match node
    case Text(_) => true
    case LineBreak => true
    case Strong(children) => AnchorsSafe(children, allowed)
    case Anchor(href, external, children) =>
      allowed && SafeHref(href) && external == IsExternal(href) && AnchorsSafe(children, false)
  }

  lemma {:induction false} AnchorsConcat(a: seq<Node>, b: seq<Node>, allowed: bool)
    ensures AnchorsSafe(a + b, allowed) <==> AnchorsSafe(a, allowed) && AnchorsSafe(b, allowed)
  {
    if a == [] {
      assert a + b == b;
    } else {
      AnchorsConcat(a[1..], b, allowed);
      assert (a + b)[0] == a[0] && (a + b)[1..] == a[1..] + b;
    }
  }

  lemma LineHasNoAnchors(line: string, first: bool, allowed: bool)
    ensures AnchorsSafe(LineNode(line, first), allowed)
  {
    AnchorsConcat(if first then [] else [LineBreak], if line == "" then [] else [Text(line)], allowed);
  }

  lemma {:induction false} LinesHaveNoAnchors(lines: seq<string>, first: bool, allowed: bool)
    ensures AnchorsSafe(LineNodes(lines, first), allowed)
  {
    if lines != [] {
      LineHasNoAnchors(lines[0], first, allowed);
      LinesHaveNoAnchors(lines[1..], false, allowed);
      AnchorsConcat(LineNode(lines[0], first), LineNodes(lines[1..], false), allowed);
    }
  }

  lemma {:induction false} PartsHaveNoAnchors(parts: seq<string>, allowed: bool)
    ensures AnchorsSafe(PartsNodes(parts), allowed)
  {
    if parts != [] {
      var part := parts[0];
      PartsHaveNoAnchors(parts[1..], allowed);
      LinesHaveNoAnchors(Split(part, "\n"), true, allowed);
      if part != "" && IsBold(part) {
        LinesHaveNoAnchors(Split(part[2..|part| - 2], "\n"), true, allowed);
        assert PartNodes(part)[1..] == [];
      }
      AnchorsConcat(PartNodes(part), PartsNodes(parts[1..]), allowed);
    }
  }

  lemma BoldHasNoAnchors(text: string, allowed: bool)
    ensures AnchorsSafe(Bold(text), allowed)
  {
    PartsHaveNoAnchors(SplitBold(text), allowed);
  }

  lemma AnchorsSingle(node: Node, allowed: bool)
    ensures AnchorsSafe([node], allowed) <==> AnchorSafe(node, allowed)
  {
    assert [node][1..] == [];
  }

  lemma TokenAnchorIsSafe(t: Token)
    ensures AnchorsSafe(TokenNodes(t), true)
  {
    match t
    case Plain(text) => BoldHasNoAnchors(text, true);
    case LinkToken(linkText, url) =>
      BoldHasNoAnchors(linkText, true);
      BoldHasNoAnchors(linkText, false);
      AnchorsSingle(Anchor(url, IsExternal(url), Bold(linkText)), true);
  }

  lemma {:induction false} NodesAnchorsAreSafe(tokens: seq<Token>)
    ensures AnchorsSafe(Nodes(tokens), true)
  {
    if tokens != [] {
      TokenAnchorIsSafe(tokens[0]);
      NodesAnchorsAreSafe(tokens[1..]);
      AnchorsConcat(TokenNodes(tokens[0]), Nodes(tokens[1..]), true);
    }
  }

  // ----- Nothing is left unparsed -----

  ghost predicate NoBold(text: string) {
    forall i: nat, inner {:trigger IsBoldText(text, i, inner)} :: !IsBoldText(text, i, inner)
  }

  ghost predicate NoLink(text: string) {
    forall i: nat, linkText, url {:trigger IsLink(text, i, linkText, url)} :: !IsLink(text, i, linkText, url)
  }

  predicate NoStar(text: string) {
    '*' !in text
  }

  lemma SliceHasNoBold(text: string, from: nat, end: nat)
    requires from <= end <= |text| && NoBold(text)
    ensures NoBold(text[from..end])
  {
    forall i: nat, inner | IsBoldText(text[from..end], i, inner) ensures IsBoldText(text, from + i, inner) {
      OccursInSlice(text, from, end, "**" + inner + "**", i);
    }
  }

  lemma SliceHasNoLink(text: string, from: nat, end: nat)
    requires from <= end <= |text| && NoLink(text)
    ensures NoLink(text[from..end])
  {
    forall i: nat, linkText, url | IsLink(text[from..end], i, linkText, url)
      ensures IsLink(text, from + i, linkText, url)
    {
      OccursInSlice(text, from, end, "[" + linkText + "](" + url + ")", i);
    }
  }

  lemma NoStarNoBold(text: string)
    requires NoStar(text)
    ensures NoBold(text)
  {
    forall i: nat, inner | IsBoldText(text, i, inner) ensures false {
      OccursInThree(text, inner, i);
      CharOccurs(text, "**", i, 0);
    }
  }

  lemma NoneFoundNoBold(text: string)
    requires NextBold(text, 0) == None
    ensures NoBold(text)
  {
    forall i: nat, inner | IsBoldText(text, i, inner) ensures false {
      BoldAtMeansIsBold(text, i, inner);
      NextBoldIsLeftmost(text, 0, i);
    }
  }

  lemma LabelHasNoLink(linkText: string)
    requires AllIn(NotBracket, linkText)
    ensures NoLink(linkText)
  {
    forall i: nat, inner, url | IsLink(linkText, i, inner, url) ensures false {
      PatternLayout(linkText, i, inner, url);
    }
  }

  /** Before the next link there is none. */
  lemma PlainHasNoLink(text: string, from: nat, end: nat)
    requires from <= end <= |text|
    requires NextLink(text, from) == None || NextLink(text, from).value.start == end
    ensures NoLink(text[from..end])
  {
    forall i: nat, linkText, url | IsLink(text[from..end], i, linkText, url) ensures false {
      OccursInSlice(text, from, end, "[" + linkText + "](" + url + ")", i);
      LinkAtMeansIsLink(text, from + i, linkText, url);
      NextLinkIsLeftmost(text, from, from + i);
    }
  }

  /** A text node holds no line break, no link and no bold text, and inside bold text no star. */
  ghost predicate Literal(text: string, bold: bool) {
    text != "" && '\n' !in text && NoLink(text) && NoBold(text) && (bold ==> NoStar(text))
  }

  /** Every text node is literal; bold text and links hold something, and bold text nothing but text and breaks. */
  ghost predicate Parsed(nodes: seq<Node>, bold: bool)
    decreases nodes
  {
    nodes == [] || (ParsedNode(nodes[0], bold) && Parsed(nodes[1..], bold))
  }

  ghost predicate ParsedNode(node: Node, bold: bool)
    decreases node
  {
    match node
    case Text(text) => Literal(text, bold)
    case LineBreak => true
    case Strong(children) => !bold && children != [] && Parsed(children, true)
    case Anchor(_, _, children) => !bold && children != [] && Parsed(children, false)
  }

  lemma {:induction false} ParsedConcat(a: seq<Node>, b: seq<Node>, bold: bool)
    ensures Parsed(a + b, bold) <==> Parsed(a, bold) && Parsed(b, bold)
  {
    if a == [] {
      assert a + b == b;
    } else {
      ParsedConcat(a[1..], b, bold);
      assert (a + b)[0] == a[0] && (a + b)[1..] == a[1..] + b;
    }
  }

  lemma ParsedSingle(node: Node, bold: bool)
    ensures Parsed([node], bold) <==> ParsedNode(node, bold)
  {
    assert [node][1..] == [];
  }

  /** Texts without links and bold text, and without stars when inside bold text. */
  ghost predicate Inert(text: string, bold: bool) {
    NoLink(text) && NoBold(text) && (bold ==> NoStar(text))
  }

  lemma SliceIsInert(text: string, from: nat, end: nat, bold: bool)
    requires from <= end <= |text| && Inert(text, bold)
    ensures Inert(text[from..end], bold)
  {
    SliceHasNoLink(text, from, end);
    SliceHasNoBold(text, from, end);
  }

  ghost predicate InertLines(lines: seq<string>, bold: bool) {
    forall k | 0 <= k < |lines| :: '\n' !in lines[k] && Inert(lines[k], bold)
  }

  lemma {:induction false} LinesAreInert(text: string, bold: bool)
    requires Inert(text, bold)
    ensures InertLines(Split(text, "\n"), bold)
    decreases |text|
  {
    var i := IndexOf(text, "\n", 0);
    if i == -1 {
      NoBreakBefore(text, |text|);
      assert text[..|text|] == text;
    } else {
      NoBreakBefore(text, i);
      SliceIsInert(text, 0, i, bold);
      SliceIsInert(text, i + 1, |text|, bold);
      assert text[0..i] == text[..i] && text[i + 1..|text|] == text[i + 1..];
      LinesAreInert(text[i + 1..], bold);
    }
  }

  lemma NoBreakBefore(text: string, end: nat)
    requires end <= |text| && forall j: nat | j < end :: !OccursAt(text, "\n", j)
    ensures '\n' !in text[..end]
  {
    forall j | 0 <= j < end ensures text[j] != '\n' {
      assert !OccursAt(text, "\n", j) && text[j..j + 1] == [text[j]];
    }
  }

  lemma LineIsParsed(line: string, first: bool, bold: bool)
    requires '\n' !in line && Inert(line, bold)
    ensures Parsed(LineNode(line, first), bold)
  {
    ParsedSingle(LineBreak, bold);
    ParsedSingle(Text(line), bold);
    ParsedConcat(if first then [] else [LineBreak], if line == "" then [] else [Text(line)], bold);
  }

  lemma {:induction false} LinesAreParsed(lines: seq<string>, first: bool, bold: bool)
    requires InertLines(lines, bold)
    ensures Parsed(LineNodes(lines, first), bold)
  {
    if lines != [] {
      LineIsParsed(lines[0], first, bold);
      LinesAreParsed(lines[1..], false, bold);
      ParsedConcat(LineNode(lines[0], first), LineNodes(lines[1..], false), bold);
    }
  }

  lemma BreaksAreParsed(text: string, bold: bool)
    requires Inert(text, bold)
    ensures Parsed(Breaks(text), bold)
  {
    LinesAreInert(text, bold);
    LinesAreParsed(Split(text, "\n"), true, bold);
  }

  lemma BoldPartIsInert(part: string)
    requires IsBold(part) && NoLink(part)
    ensures |part| > 4 && Inert(part[2..|part| - 2], true)
  {
    var inner := part[2..|part| - 2];
    RunEndStops(NotStar, part, 2);
    assert forall k | 0 <= k < |inner| :: InClass(NotStar, inner[k]);
    NoStarNoBold(inner);
    SliceHasNoLink(part, 2, |part| - 2);
  }

  lemma PartIsParsed(part: string)
    requires NoLink(part) && (IsBold(part) || NextBold(part, 0) == None)
    ensures Parsed(PartNodes(part), false)
  {
    if IsBold(part) {
      BoldPartIsInert(part);
      var inner := part[2..|part| - 2];
      BreaksAreParsed(inner, true);
      PrintBreaks(inner);
      ParsedSingle(Strong(Breaks(inner)), false);
    } else {
      NoneFoundNoBold(part);
      BreaksAreParsed(part, false);
    }
  }

  ghost predicate GoodPart(part: string) {
    NoLink(part) && (IsBold(part) || NextBold(part, 0) == None)
  }

  lemma {:induction false} PartsAreParsed(parts: seq<string>)
    requires forall k | 0 <= k < |parts| :: GoodPart(parts[k])
    ensures Parsed(PartsNodes(parts), false)
  {
    if parts != [] {
      assert GoodPart(parts[0]);
      PartIsParsed(parts[0]);
      PartsAreParsed(parts[1..]);
      ParsedConcat(PartNodes(parts[0]), PartsNodes(parts[1..]), false);
    }
  }

  lemma {:induction false} PartsHaveNoLink(text: string, k: nat)
    requires NoLink(text) && k < |SplitBold(text)|
    ensures NoLink(SplitBold(text)[k])
    decreases |text|
  {
    var m := NextBold(text, 0);
    if m != None {
      var from, end := m.value.0, m.value.1;
      SliceHasNoLink(text, 0, from);
      SliceHasNoLink(text, from, end);
      SliceHasNoLink(text, end, |text|);
      assert text[0..from] == text[..from] && text[end..|text|] == text[end..];
      if k >= 2 {
        PartsHaveNoLink(text[end..], k - 2);
      }
    }
  }

  lemma BoldIsParsed(text: string)
    requires NoLink(text)
    ensures Parsed(Bold(text), false)
  {
    var parts := SplitBold(text);
    BoldPartsAlternate(text);
    forall k | 0 <= k < |parts| ensures GoodPart(parts[k]) {
      PartsHaveNoLink(text, k);
      assert k % 2 == 0 || k % 2 == 1;
    }
    PartsAreParsed(parts);
  }

  ghost predicate GoodToken(t: Token) {
    match t
    case Plain(text) => NoLink(text)
    case LinkToken(linkText, _) => linkText != "" && NoLink(linkText)
  }

  lemma TokenIsParsed(t: Token)
    requires GoodToken(t)
    ensures Parsed(TokenNodes(t), false)
  {
    match t
    case Plain(text) => BoldIsParsed(text);
    case LinkToken(linkText, url) =>
      BoldIsParsed(linkText);
      PrintBold(linkText);
      ParsedSingle(Anchor(url, IsExternal(url), Bold(linkText)), false);
  }

  ghost predicate GoodTokens(tokens: seq<Token>) {
    forall k | 0 <= k < |tokens| :: GoodToken(tokens[k])
  }

  lemma {:induction false} TokensAreParsed(tokens: seq<Token>)
    requires GoodTokens(tokens)
    ensures Parsed(Nodes(tokens), false)
  {
    if tokens != [] {
      TokenIsParsed(tokens[0]);
      TokensAreParsed(tokens[1..]);
      ParsedConcat(TokenNodes(tokens[0]), Nodes(tokens[1..]), false);
    }
  }

  lemma FoundTokenIsGood(text: string, from: nat, m: Link)
    requires from <= |text| && NextLink(text, from) == Some(m)
    ensures GoodToken(FoundToken(text, m))
  {
    NextLinkIsLink(text, from);
    FoundIsPattern(text, m.start);
    LabelHasNoLink(Label(text, m));
  }

  lemma GoodTokensAround(a: seq<Token>, t: Token, b: seq<Token>)
    requires GoodTokens(a) && GoodToken(t) && GoodTokens(b)
    ensures GoodTokens(a + ([t] + b))
  {
  }

  lemma PlainTokensAreGood(text: string, from: nat, end: nat)
    requires from <= end <= |text|
    requires NextLink(text, from) == None || NextLink(text, from).value.start == end
    ensures GoodTokens(PlainTokens(text, from, end))
  {
    PlainHasNoLink(text, from, end);
  }

  lemma TokensFrom(text: string, from: nat, m: Link)
    requires from <= |text| && NextLink(text, from) == Some(m)
    ensures Tokens(text, from)
         == PlainTokens(text, from, m.start) + ([FoundToken(text, m)] + Tokens(text, m.urlEnd + 1))
  {
  }

  lemma {:induction false} TokensAreGood(text: string, from: nat)
    requires from <= |text|
    ensures GoodTokens(Tokens(text, from))
    decreases |text| - from
  {
    var m := NextLink(text, from);
    if m == None {
      PlainTokensAreGood(text, from, |text|);
    } else {
      var next := m.value.urlEnd + 1;
      PlainTokensAreGood(text, from, m.value.start);
      FoundTokenIsGood(text, from, m.value);
      TokensAreGood(text, next);
      GoodTokensAround(PlainTokens(text, from, m.value.start), FoundToken(text, m.value), Tokens(text, next));
      TokensFrom(text, from, m.value);
    }
  }

  /** Whatever the text, no line break, link or bold text is left in a text node. */
  lemma RichIsParsed(text: string)
    ensures Parsed(Rich(text), false)
  {
    TokensAreGood(text, 0);
    TokensAreParsed(Tokens(text, 0));
  }

  /** Part `k + 1` is the leftmost bold text of what the parts from `k` on were cut from. */
  ghost predicate LeftmostAfter(parts: seq<string>, k: nat)
    requires k + 1 < |parts|
  {
    NextBold(Concat(parts[k..]), 0) == Some((|parts[k]|, |parts[k]| + |parts[k + 1]|))
  }

  lemma FirstBoldPart(text: string)
    requires 1 < |SplitBold(text)|
    ensures LeftmostAfter(SplitBold(text), 0)
  {
    BoldPartsTile(text);
    assert SplitBold(text)[0..] == SplitBold(text);
  }

  lemma LaterBoldPart(before: string, bold: string, rest: seq<string>, k: nat)
    requires 2 <= k && k - 1 < |rest| && LeftmostAfter(rest, k - 2)
    ensures LeftmostAfter([before, bold] + rest, k)
  {
    assert ([before, bold] + rest)[k..] == rest[k - 2..];
  }

  /** Each bold part is the leftmost bold text in what is left of the text before it is cut out. */
  lemma {:induction false} BoldPartsAreLeftmost(text: string, k: nat)
    requires k % 2 == 0 && k + 1 < |SplitBold(text)|
    ensures LeftmostAfter(SplitBold(text), k)
    decreases |text|
  {
    if k == 0 {
      FirstBoldPart(text);
    } else {
      var m := NextBold(text, 0).value;
      BoldPartsAreLeftmost(text[m.1..], k - 2);
      LaterBoldPart(text[..m.0], text[m.0..m.1], SplitBold(text[m.1..]), k);
    }
  }

  // ----- The renderer -----

  method WithBreaks(text: string) returns (out: seq<Node>)
    ensures out == Breaks(text)
  {
    out := [];
    var lines := Split(text, "\n");
    ghost var rest := LineNodes(lines, true);
    for i := 0 to |lines|
      invariant rest == LineNodes(lines[i..], i == 0) && out + rest == Breaks(text)
    {
      assert lines[i..][0] == lines[i] && lines[i..][1..] == lines[i + 1..];
      rest := LineNodes(lines[i + 1..], false);
      Associates(out, LineNode(lines[i], i == 0), rest);
      var line := [];
      if i > 0 { line := line + [LineBreak]; }
      if lines[i] != "" { line := line + [Text(lines[i])]; }
      out := out + line;
    }
  }

  method WithPart(part: string) returns (out: seq<Node>)
    ensures out == PartNodes(part)
  {
    if part == "" { return []; }
    if IsBold(part) {
      var inner := WithBreaks(part[2..|part| - 2]);
      out := [Strong(inner)];
    } else {
      out := WithBreaks(part);
    }
  }

  method WithBold(text: string) returns (out: seq<Node>)
    ensures out == Bold(text) && Print(out) == text
    ensures NoLink(text) ==> Parsed(out, false)
  {
    PrintBold(text);
    if NoLink(text) { BoldIsParsed(text); }
    out := [];
    var parts := SplitBold(text);
    for i := 0 to |parts|
      invariant out + PartsNodes(parts[i..]) == PartsNodes(parts)
    {
      var nodes := WithPart(parts[i]);
      assert parts[i..][0] == parts[i] && parts[i..][1..] == parts[i + 1..];
      out := out + nodes;
    }
  }

  method WithPlain(text: string, from: nat, end: nat) returns (out: seq<Node>)
    requires from <= end <= |text|
    ensures out == Nodes(PlainTokens(text, from, end))
  {
    out := [];
    if end > from {
      FlatMapSingle(TokenNodes, Plain(text[from..end]));
      out := WithBold(text[from..end]);
    }
  }

  method WithLink(linkText: string, url: string) returns (out: seq<Node>)
    ensures out == TokenNodes(LinkToken(linkText, url))
  {
    out := WithBold(linkText);
    if SafeHref(url) {
      out := [Anchor(url, IsExternal(url), out)];
    }
  }

  /** The renderer's loop: `nodes` is the image of the text before `last`. */
  ghost predicate Rendering<B>(f: Token -> seq<B>, text: string, nodes: seq<B>, last: nat) {
    && last <= |text|
    && nodes + FlatMap(f, Tokens(text, last)) == FlatMap(f, Tokens(text, 0))
  }

  lemma RenderingTurns<B>(f: Token -> seq<B>, text: string, nodes: seq<B>, last: nat, link: Link,
                          turn: seq<B>)
    requires Rendering(f, text, nodes, last) && NextLink(text, last) == Some(link)
    requires turn == FlatMap(f, PlainTokens(text, last, link.start)) + f(FoundToken(text, link))
    ensures Rendering(f, text, nodes + turn, link.urlEnd + 1)
  {
    var a, b, c := PlainTokens(text, last, link.start), [FoundToken(text, link)], Tokens(text, link.urlEnd + 1);
    TokensUnfold(f, text, last, link);
    FlatMapSingle(f, FoundToken(text, link));
    Associates(FlatMap(f, a), FlatMap(f, b), FlatMap(f, c));
    Associates(nodes, FlatMap(f, a) + FlatMap(f, b), FlatMap(f, c));
  }

  lemma RenderingStarts<B>(f: Token -> seq<B>, text: string)
    ensures Rendering(f, text, [], 0)
  {
  }

  /** One turn of the renderer's loop: the text up to a link, and the link. */
  method RenderTurn(text: string, last: nat, link: Link) returns (turn: seq<Node>)
    requires Fits(text, link) && last <= link.start
    ensures turn == FlatMap(TokenNodes, PlainTokens(text, last, link.start)) + TokenNodes(FoundToken(text, link))
  {
    turn := WithPlain(text, last, link.start);
    var linked := WithLink(Label(text, link), Url(text, link));
    turn := turn + linked;
  }

  /** Taking a turn moves the cursor behind the link and keeps the image of the text before it. */
  method TakeTurn<B>(ghost f: Token -> seq<B>, text: string, nodes: seq<B>, last: nat, link: Link, turn: seq<B>)
    returns (nodes': seq<B>, last': nat)
    requires Rendering(f, text, nodes, last) && NextLink(text, last) == Some(link)
    requires turn == FlatMap(f, PlainTokens(text, last, link.start)) + f(FoundToken(text, link))
    ensures Rendering(f, text, nodes', last') && last < last' <= |text|
  {
    RenderingTurns(f, text, nodes, last, link, turn);
    nodes', last' := nodes + turn, link.urlEnd + 1;
  }

  /** The text after the last link. */
  method RenderTail(text: string, nodes: seq<Node>, last: nat) returns (nodes': seq<Node>)
    requires Rendering(TokenNodes, text, nodes, last) && NextLink(text, last) == None
    ensures nodes' == Rich(text)
  {
    var plain := WithPlain(text, last, |text|);
    nodes' := nodes + plain;
  }

  method RenderAll(text: string) returns (nodes: seq<Node>)
    ensures nodes == Rich(text)
  {
    nodes := [];
    var last := 0;
    RenderingStarts(TokenNodes, text);
    while true
      invariant last <= |text| && Rendering(TokenNodes, text, nodes, last)
      decreases |text| - last
    {
      var m := NextLink(text, last);
      if m == None {
        nodes := RenderTail(text, nodes, last);
        return;
      }
      var turn := RenderTurn(text, last, m.value);
      nodes, last := TakeTurn(TokenNodes, text, nodes, last, m.value, turn);
    }
  }

  method RenderRich(text: string) returns (nodes: seq<Node>)
    ensures nodes == Rich(text)
    ensures AnchorsSafe(nodes, true) && Parsed(nodes, false)
    ensures Print(nodes) == text <==> LinksSafe(Tokens(text, 0))
  {
    nodes := RenderAll(text);
    NodesAnchorsAreSafe(Tokens(text, 0));
    RichIsParsed(text);
    RoundTripExactlyWhenLinksSafe(text);
  }
}
