/** The CORS origin policy built by `makeCorsOrigin` in server/src/index.js.

    The allow-list is one string of comma-separated items. An item holding a
    `*` becomes the fully anchored regular expression in which every other
    character is escaped and each `*` reads `.*`; any other item must equal
    the origin exactly. */
module Cors {
  import opened JsString

  /** One compiled allow-list item. */
  datatype Pattern = Glob(glob: string) | Exact(origin: string)

  /** The allow-list items: split on commas, trimmed, empty items dropped
      (`.split(',').map(s => s.trim()).filter(Boolean)`). */
  function Items(allowed: string): (items: seq<string>)
    ensures forall i :: 0 <= i < |items| ==> items[i] != "" && IsTrimmed(items[i]) && ',' !in items[i]
  {
    var pieces := Split(allowed, ',');
    var trimmed := Trimmed(pieces);
    var items := NonEmpty(trimmed);
    forall k | 0 <= k < |pieces|
      ensures IsTrimmed(trimmed[k]) && ',' !in trimmed[k]
    {
      TrimTakesFromInput(pieces[k]);
    }
    items
  }

  /** `pieces.map(s => s.trim())`. */
  function Trimmed(pieces: seq<string>): (ts: seq<string>)
    ensures |ts| == |pieces|
    ensures forall k :: 0 <= k < |ts| ==> ts[k] == Trim(pieces[k])
  {
    seq(|pieces|, k requires 0 <= k < |pieces| => Trim(pieces[k]))
  }

  /** `.filter(Boolean)` on strings: the empty ones are dropped, every other
      one is kept. */
  function NonEmpty(ts: seq<string>): (items: seq<string>)
    ensures |items| <= |ts|
    ensures forall i :: 0 <= i < |items| ==> items[i] != "" && items[i] in ts
    ensures forall k :: 0 <= k < |ts| && ts[k] != "" ==> ts[k] in items
  {
    if ts == [] then []
    else
      assert forall k :: 1 <= k < |ts| ==> ts[k] == ts[1..][k - 1];
      (if ts[0] == "" then [] else [ts[0]]) + NonEmpty(ts[1..])
  }

  /** A single string is kept exactly when it is not empty. */
  lemma NonEmptySingle(t: string)
    ensures NonEmpty([t]) == (if t == "" then [] else [t])
  {
    assert [t][1..] == [];
  }

  /** The filter keeps the order: filtering a concatenation concatenates the
      filtered parts (with `NonEmptySingle`, the items are the non-empty
      strings of the list, each once, in their original order). */
  lemma {:induction false} NonEmptyKeepsOrder(a: seq<string>, b: seq<string>)
    ensures NonEmpty(a + b) == NonEmpty(a) + NonEmpty(b)
  {
    if a == [] {
      assert a + b == b;
    } else {
      var ab := a + b;
      assert ab[0] == a[0];
      assert ab[1..] == a[1..] + b;
      NonEmptyKeepsOrder(a[1..], b);
      assert NonEmpty(ab) == (if a[0] == "" then [] else [a[0]]) + NonEmpty(a[1..] + b);
    }
  }

  function ToPattern(item: string): Pattern {
    if '*' in item then Glob(item) else Exact(item)
  }

  /** The language of the anchored regular expression built from `glob`:
      `*` matches any run of characters other than line terminators (what
      `.*` matches without the `s` flag); every other character matches
      itself. */
  predicate GlobMatch(glob: string, s: string)
    ensures '*' !in glob ==> (GlobMatch(glob, s) <==> s == glob)
    decreases |glob| + |s|
  {
    if glob == [] then s == []
    else if glob[0] == '*' then
      GlobMatch(glob[1..], s) || (s != [] && !IsLineTerminator(s[0]) && GlobMatch(glob, s[1..]))
    else
      assert forall c :: c in glob[1..] ==> c in glob;
      assert s != [] ==> glob == [glob[0]] + glob[1..] && s == [s[0]] + s[1..];
      s != [] && s[0] == glob[0] && GlobMatch(glob[1..], s[1..])
  }

  predicate PatternMatches(p: Pattern, origin: string) {
    match p
    case Glob(g) => GlobMatch(g, origin)
    case Exact(e) => e == origin
  }

  /** `patterns.some(...)` over the compiled items. */
  predicate AnyMatches(items: seq<string>, origin: string) {
    exists i :: 0 <= i < |items| && PatternMatches(ToPattern(items[i]), origin)
  }

  /** The decision the origin callback passes to `cors`: an empty or `*`
      allow-list admits everything, a missing (empty) origin is admitted,
      otherwise the origin must match the pattern of one of the trimmed,
      non-empty comma-separated pieces of the list. */
  function OriginAllowed(allowed: string, origin: string): (ok: bool)
    ensures allowed == "" || allowed == "*" || origin == "" ==> ok
    ensures allowed != "" && allowed != "*" && origin != "" ==>
      (ok <==> exists k :: 0 <= k < |Split(allowed, ',')| && Trim(Split(allowed, ',')[k]) != ""
                 && PatternMatches(ToPattern(Trim(Split(allowed, ',')[k])), origin))
  {
    if allowed == "" || allowed == "*" then true
    else origin == "" || AnyMatches(Items(allowed), origin)
  }

  /** The lone glob `*` admits every string free of line terminators. */
  lemma {:induction false} StarMatchesLine(s: string)
    ensures GlobMatch("*", s) <==> forall i :: 0 <= i < |s| ==> !IsLineTerminator(s[i])
    decreases |s|
  {
    if s != [] {
      StarMatchesLine(s[1..]);
      assert "*"[1..] == [];
      assert forall i :: 1 <= i < |s| ==> s[1..][i - 1] == s[i];
    }
  }

  /** A leading `*` admits any prefix (free of line terminators) in front of
      what the rest of the glob admits, e.g. `*.example.com` admits
      `https://app.example.com`. */
  lemma {:induction false} StarPrefix(rest: string, prefix: string, s: string)
    requires forall i :: 0 <= i < |prefix| ==> !IsLineTerminator(prefix[i])
    requires GlobMatch(rest, s)
    ensures GlobMatch(['*'] + rest, prefix + s)
    decreases |prefix|
  {
    var g := ['*'] + rest;
    assert g[1..] == rest;
    if prefix != [] {
      StarPrefix(rest, prefix[1..], s);
      assert (prefix + s)[1..] == prefix[1..] + s;
    } else {
      assert prefix + s == s;
    }
  }

  /** With a list free of `*`, the policy admits precisely the trimmed,
      comma-separated origins it lists. */
  lemma ExactListAllowed(allowed: string, origin: string)
    requires allowed != "" && allowed != "*" && origin != ""
    requires forall k :: 0 <= k < |Split(allowed, ',')| ==> '*' !in Split(allowed, ',')[k]
    ensures OriginAllowed(allowed, origin) <==>
      exists k :: 0 <= k < |Split(allowed, ',')| && Trim(Split(allowed, ',')[k]) == origin
  {
    var pieces := Split(allowed, ',');
    forall k | 0 <= k < |pieces|
      ensures ToPattern(Trim(pieces[k])) == Exact(Trim(pieces[k]))
    {
      TrimTakesFromInput(pieces[k]);
    }
    if exists k :: 0 <= k < |pieces| && Trim(pieces[k]) == origin {
      var k :| 0 <= k < |pieces| && Trim(pieces[k]) == origin;
      assert PatternMatches(ToPattern(Trim(pieces[k])), origin);
    }
  }
}
