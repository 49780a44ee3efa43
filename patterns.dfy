/** The Django URL regexes of the router: the primary-key patterns, the collection- and
    member-targeting regexes of the standard and search routes, and the translation of a
    custom endpoint's OpenAPI path template into a regex. Regexes are strings here; what
    they match is Django's business (see the README). */
module RoutePatterns {
  import opened PyText
  import opened OpenApiNames

  /** `UUID_PATT`, the regex text `\w{8}-\w{4}-\w{4}-\w{4}-\w{12}`. */
  const UuidPatt: string := "\\w{8}-\\w{4}-\\w{4}-\\w{4}-\\w{12}"

  /** `ID_PATT`, the regex text `\d+`. */
  const IdPatt: string := "\\d+"

  /** `{'uuid': UUID_PATT, 'id': ID_PATT}.get(resource_cls.primary_key, UUID_PATT)`: an
      integer pattern for `id` keys and the UUID pattern for anything else. */
  function PkPattFor(primaryKey: string): (p: string)
    ensures p == IdPatt <==> primaryKey == "id"
    ensures p == UuidPatt <==> primaryKey != "id"
  {
    assert |IdPatt| == 3 && |UuidPatt| == 30;
    if primaryKey == "id" then IdPatt else UuidPatt
  }

  /** The part of a regex from the slash after the collection name or the primary key on:
      `/<m1>/<m2>/.../` for modifiers, a lone `/` without. */
  function ModifiersTail(modifiers: seq<string>): string {
    if modifiers != [] then "/" + Join(modifiers, "/") + "/" else "/"
  }

  /** `get_collection_targeting_regex(rsrc_collection_name, modifiers)`: `^<c>/$`, or
      `^<c>/<m1>/.../$` with modifiers. */
  function CollectionRegex(collection: string, modifiers: seq<string>): string {
    "^" + collection + ModifiersTail(modifiers) + "$"
  }

  /** The named group `(?P<name>patt)`. */
  function Group(name: string, patt: string): (g: string)
    ensures |g| == |name| + |patt| + 6
  {
    "(?P<" + name + ">" + patt + ")"
  }

  /** `get_member_targeting_regex(rsrc_collection_name, pk_patt, modifiers)`:
      `^<c>/(?P<pk><pk_patt>)/$`, or `^<c>/(?P<pk><pk_patt>)/<m1>/.../$` with modifiers. */
  function MemberRegex(collection: string, pkPatt: string, modifiers: seq<string>): string {
    "^" + collection + "/" + Group("pk", pkPatt) + ModifiersTail(modifiers) + "$"
  }

  /** The router's collection regexes are the generator's collection paths, anchored and
      without their leading slash: both halves of the package agree on where a
      collection lives. */
  lemma CollectionRegexIsOpenApiPath(collection: string, modifiers: seq<string>)
    ensures var p := CollectionOpenApiPath(collection, modifiers);
            |p| > 0 && CollectionRegex(collection, modifiers) == "^" + p[1..] + "$"
  {
    var p := CollectionOpenApiPath(collection, modifiers);
    var t := ModifiersTail(modifiers);
    assert p == "/" + (collection + t) by {
      if modifiers != [] {
        assert t == "/" + Join(modifiers, "/") + "/";
      }
    }
    assert p[1..] == collection + t;
    assert CollectionRegex(collection, modifiers) == "^" + (collection + t) + "$";
  }

  /** The six regexes of a resource's standard and search routes are pairwise distinct:
      `^c/$`, `^c/new/$`, `^c/search/$`, `^c/new_search/$`, `^c/(?P<pk>…)/$` and
      `^c/(?P<pk>…)/edit/$`. */
  lemma StandardRegexesDistinct(collection: string, pkPatt: string)
    ensures var rs := [CollectionRegex(collection, []), CollectionRegex(collection, ["new"]),
                       CollectionRegex(collection, ["search"]), CollectionRegex(collection, ["new_search"]),
                       MemberRegex(collection, pkPatt, []), MemberRegex(collection, pkPatt, ["edit"])];
            forall i, j :: 0 <= i < j < |rs| ==> rs[i] != rs[j]
  {
    var n := |collection| + 2;
    var c0 := CollectionRegex(collection, []);
    var c1 := CollectionRegex(collection, ["new"]);
    var c2 := CollectionRegex(collection, ["search"]);
    var c3 := CollectionRegex(collection, ["new_search"]);
    var m0 := MemberRegex(collection, pkPatt, []);
    var m1 := MemberRegex(collection, pkPatt, ["edit"]);
    // Right after `^<c>/`, the member regexes read `(` and the collection regexes `$`,
    // `n`, `s` or `n`; within each kind the lengths differ.
    assert |c0| < |c1| < |c2| < |c3| && c0[n] == '$' && c1[n] == 'n' && c2[n] == 's' && c3[n] == 'n' by {
      assert ModifiersTail(["new"]) == "/new/";
      assert ModifiersTail(["search"]) == "/search/";
      assert ModifiersTail(["new_search"]) == "/new_search/";
      var h := "^" + collection;
      assert c0 == h + ("/" + "$") && c1 == h + ("/new/" + "$");
      assert c2 == h + ("/search/" + "$") && c3 == h + ("/new_search/" + "$");
      assert c0[n] == ("/" + "$")[1] && c1[n] == ("/new/" + "$")[1];
      assert c2[n] == ("/search/" + "$")[1] && c3[n] == ("/new_search/" + "$")[1];
    }
    assert |m0| < |m1| && m0[n] == '(' && m1[n] == '(' by {
      assert ModifiersTail(["edit"]) == "/edit/";
      var g := Group("pk", pkPatt);
      assert m0 == ("^" + collection + "/") + g + ModifiersTail([]) + "$";
      assert m1 == ("^" + collection + "/") + g + ModifiersTail(["edit"]) + "$";
      assert g[0] == '(';
    }
  }

  // ---------------------------------------------------------------------------
  // OpenAPI path templates to regexes
  // ---------------------------------------------------------------------------

  /** Where `\{([^}]+)\}` attempted at the start of `path` would close: the first `}`
      after the start, or `|path|`. */
  function ShortClose(path: string): (j: nat)
    requires path != []
    ensures 1 <= j <= |path|
  {
    1 + IndexOf(path[1..], '}')
  }

  /** `re.compile(r'\{([^}]+)\}').sub(replacer, path)`: every `{name}` (the shortest
      brace-delimited non-empty name) becomes the group `(?P<name>patt)`; every other
      character is copied. This is the intended substitution (see `GreedySubstitute`). */
  function Substitute(path: string, patt: string): string
    decreases |path|
  {
    if path == [] then []
    else
      var j := ShortClose(path);
      if path[0] == '{' && 2 <= j < |path| then
        Group(path[1..j], patt) + Substitute(path[j + 1..], patt)
      else [path[0]] + Substitute(path[1..], patt)
  }

  /** The index of the last `c` in `s`, or -1. */
  function LastIndexOf(s: string, c: char): (j: int)
    ensures -1 <= j < |s|
    ensures j >= 0 ==> s[j] == c
    ensures forall k :: j < k < |s| ==> s[k] != c
  {
    if s == [] then -1
    else if s[|s| - 1] == c then |s| - 1
    else LastIndexOf(s[..|s| - 1], c)
  }

  /** Where the greedy `\{(.+)\}` attempted at the start of `path` would close: the last
      `}` before the first line break after the start, or -1. */
  function GreedyClose(path: string): (j: int)
    requires path != []
    ensures -1 <= j < |path|
  {
    var lineEnd := 1 + IndexOf(path[1..], '\n');
    LastIndexOf(path[..lineEnd], '}')
  }

  /** `re.compile(r'\{(.+)\}').sub(replacer, path)`, as the source writes it: at a `{`
      the greedy `.+` runs to the LAST `}` before the end of the line, so a template
      with two parameters yields one group whose name spans both. */
  function GreedySubstitute(path: string, patt: string): string
    decreases |path|
  {
    if path == [] then []
    else
      var j := GreedyClose(path);
      if path[0] == '{' && j >= 2 then
        Group(path[1..j], patt) + GreedySubstitute(path[j + 1..], patt)
      else [path[0]] + GreedySubstitute(path[1..], patt)
  }

  /** `openapi_path2regex(path, rsrc_collection_name, pk_patt)` as written (greedy). */
  function Path2RegexAsWritten(path: string, collection: string, pkPatt: string): string {
    "^" + collection + "/" + GreedySubstitute(path, pkPatt) + "$"
  }

  /** `openapi_path2regex(path, rsrc_collection_name, pk_patt)` with one group per path
      parameter, which is what the rest of the model uses. */
  function Path2Regex(path: string, collection: string, pkPatt: string): string {
    "^" + collection + "/" + Substitute(path, pkPatt) + "$"
  }

  /** As written, a custom endpoint path with two parameters, `{p}/{q}/`, gets a single
      group named `p}/{q`, which is not even a valid group name. */
  lemma GreedyOnTwoParams(p: string, q: string, patt: string)
    requires p != [] && '{' !in p && '}' !in p && '\n' !in p
    requires q != [] && '{' !in q && '}' !in q && '\n' !in q
    ensures GreedySubstitute("{" + p + "}/{" + q + "}/", patt) == Group(p + "}/{" + q, patt) + "/"
  {
    var name := p + "}/{" + q;
    assert "{" + p + "}/{" + q + "}/" == "{" + name + "}" + "/";
    GreedyParamLast(name, "/", patt);
    GreedyPlain("/", patt);
  }

  /** The intended substitution gives `{p}/{q}/` one group per parameter. */
  lemma SubstituteOnTwoParams(p: string, q: string, patt: string)
    requires p != [] && '}' !in p
    requires q != [] && '}' !in q
    ensures Substitute("{" + p + "}/{" + q + "}/", patt) == Group(p, patt) + "/" + Group(q, patt) + "/"
  {
    var rest := "/" + "{" + q + "}" + "/";
    assert "{" + p + "}/{" + q + "}/" == "{" + p + "}" + rest;
    SubstituteParam(p, rest, patt);
    SubstituteOnOneParam("/", q, "/", patt);
  }

  /** The two substitutions disagree on every such path. */
  lemma GreedyMergesParameters(p: string, q: string, patt: string)
    requires p != [] && '{' !in p && '}' !in p && '\n' !in p
    requires q != [] && '{' !in q && '}' !in q && '\n' !in q
    ensures GreedySubstitute("{" + p + "}/{" + q + "}/", patt) != Substitute("{" + p + "}/{" + q + "}/", patt)
  {
    GreedyOnTwoParams(p, q, patt);
    SubstituteOnTwoParams(p, q, patt);
    assert |Group(p + "}/{" + q, patt) + "/"| != |Group(p, patt) + "/" + Group(q, patt) + "/"|;
  }

  /** The instance `{pk}/{n}/`. */
  lemma GreedyMergesPkAndN(patt: string)
    ensures GreedySubstitute("{pk}/{n}/", patt) == Group("pk}/{n", patt) + "/"
    ensures GreedySubstitute("{pk}/{n}/", patt) != Substitute("{pk}/{n}/", patt)
  {
    assert "{" + "pk" + "}/{" + "n" + "}/" == "{pk}/{n}/";
    assert "pk" + "}/{" + "n" == "pk}/{n";
    GreedyOnTwoParams("pk", "n", patt);
    GreedyMergesParameters("pk", "n", patt);
  }

  /** A segment of an OpenAPI path template: literal text, or a `{name}` parameter. */
  datatype PathSeg = Lit(text: string) | Param(name: string)

  /** A literal holds no `{` (so it starts no parameter); a parameter's name is non-empty
      and holds no `}`. */
  predicate WellFormedSeg(seg: PathSeg) {
    match seg
    case Lit(t) => '{' !in t
    case Param(n) => n != [] && '}' !in n
  }

  /** The template text of a list of segments. */
  function Template(segs: seq<PathSeg>): string {
    if segs == [] then []
    else
      match segs[0]
      case Lit(t) => t + Template(segs[1..])
      case Param(n) => "{" + n + "}" + Template(segs[1..])
  }

  /** The regex the segments denote: literals verbatim, parameters as groups. */
  function SegRegex(segs: seq<PathSeg>, patt: string): string {
    if segs == [] then []
    else
      match segs[0]
      case Lit(t) => t + SegRegex(segs[1..], patt)
      case Param(n) => Group(n, patt) + SegRegex(segs[1..], patt)
  }

  lemma {:induction false} SubstituteLit(t: string, rest: string, patt: string)
    requires '{' !in t
    ensures Substitute(t + rest, patt) == t + Substitute(rest, patt)
    decreases |t|
  {
    if t != [] {
      var s := t + rest;
      assert s[0] == t[0] && s[1..] == t[1..] + rest;
      SubstituteLit(t[1..], rest, patt);
    } else {
      assert t + rest == rest;
    }
  }

  lemma SubstituteParam(n: string, rest: string, patt: string)
    requires n != [] && '}' !in n
    ensures Substitute("{" + n + "}" + rest, patt) == Group(n, patt) + Substitute(rest, patt)
  {
    var s := "{" + n + "}" + rest;
    assert ShortClose(s) == |n| + 1 by {
      assert s[1..] == n + "}" + rest;
      assert forall k :: 0 <= k < |n| ==> s[1..][k] == n[k];
      assert s[1..][|n|] == '}';
    }
    assert s[1..|n| + 1] == n && s[|n| + 2..] == rest;
  }

  /** The substitution translates a well-formed template segment by segment. */
  lemma {:induction false} SubstituteTemplate(segs: seq<PathSeg>, patt: string)
    requires forall k :: 0 <= k < |segs| ==> WellFormedSeg(segs[k])
    ensures Substitute(Template(segs), patt) == SegRegex(segs, patt)
  {
    if segs != [] {
      SubstituteTemplate(segs[1..], patt);
      match segs[0]
      case Lit(t) => SubstituteLit(t, Template(segs[1..]), patt);
      case Param(n) => SubstituteParam(n, Template(segs[1..]), patt);
    }
  }

  /** No `{` appears in `parts` joined by `/` when none appears in the parts. */
  lemma {:induction false} JoinWithoutBrace(parts: seq<string>)
    requires forall k :: 0 <= k < |parts| ==> '{' !in parts[k]
    ensures '{' !in Join(parts, "/")
  {
    if |parts| > 1 {
      JoinWithoutBrace(parts[1..]);
      assert Join(parts, "/") == parts[0] + "/" + Join(parts[1..], "/");
    }
  }

  /** A custom endpoint at `{pk}/<modifiers>/` gets exactly the regex of the standard
      member-targeting route with those modifiers. */
  lemma MemberRegexIsPath2Regex(collection: string, pkPatt: string, modifiers: seq<string>)
    requires forall k :: 0 <= k < |modifiers| ==> '{' !in modifiers[k]
    ensures MemberRegex(collection, pkPatt, modifiers) ==
            Path2Regex("{pk}" + ModifiersTail(modifiers), collection, pkPatt)
  {
    if modifiers != [] {
      JoinWithoutBrace(modifiers);
    }
    MemberTail(collection, pkPatt, ModifiersTail(modifiers));
  }

  lemma MemberTail(collection: string, pkPatt: string, tail: string)
    requires '{' !in tail
    ensures Path2Regex("{pk}" + tail, collection, pkPatt) == "^" + collection + "/" + Group("pk", pkPatt) + tail + "$"
  {
    var g := Group("pk", pkPatt);
    assert Substitute("{pk}" + tail, pkPatt) == g + tail by {
      assert "{pk}" + tail == "{" + "pk" + "}" + tail;
      SubstituteParam("pk", tail, pkPatt);
      SubstituteNoBrace(tail, pkPatt);
    }
  }

  /** On a template with a single parameter and no line break, the shape of every custom
      endpoint path with one `{pk}`, the greedy substitution gives the intended regex. */
  lemma GreedyOnOneParam(a: string, n: string, b: string, patt: string)
    requires '{' !in a && n != [] && '\n' !in n && '{' !in b && '}' !in b && '\n' !in b
    ensures GreedySubstitute(a + "{" + n + "}" + b, patt) == a + Group(n, patt) + b
  {
    var rest := "{" + n + "}" + b;
    var g := Group(n, patt);
    assert a + "{" + n + "}" + b == a + rest;
    assert GreedySubstitute(rest, patt) == g + b by {
      GreedyParamLast(n, b, patt);
      GreedyPlain(b, patt);
    }
    assert GreedySubstitute(a + rest, patt) == a + (g + b) by {
      GreedyLit(a, rest, patt);
    }
  }

  lemma SubstituteOnOneParam(a: string, n: string, b: string, patt: string)
    requires '{' !in a && n != [] && '}' !in n && '{' !in b
    ensures Substitute(a + "{" + n + "}" + b, patt) == a + Group(n, patt) + b
  {
    var rest := "{" + n + "}" + b;
    var g := Group(n, patt);
    assert a + "{" + n + "}" + b == a + rest;
    assert Substitute(rest, patt) == g + b by {
      SubstituteParam(n, b, patt);
      SubstituteNoBrace(b, patt);
    }
    assert Substitute(a + rest, patt) == a + (g + b) by {
      SubstituteLit(a, rest, patt);
    }
  }

  lemma GreedyAgreesOnOneParam(a: string, n: string, b: string, patt: string)
    requires '{' !in a && n != [] && '}' !in n && '\n' !in n
    requires '{' !in b && '}' !in b && '\n' !in b
    ensures GreedySubstitute(a + "{" + n + "}" + b, patt) == Substitute(a + "{" + n + "}" + b, patt)
  {
    GreedyOnOneParam(a, n, b, patt);
    SubstituteOnOneParam(a, n, b, patt);
  }

  lemma {:induction false} GreedyLit(t: string, rest: string, patt: string)
    requires '{' !in t
    ensures GreedySubstitute(t + rest, patt) == t + GreedySubstitute(rest, patt)
    decreases |t|
  {
    if t != [] {
      var s := t + rest;
      assert s[0] == t[0] && s[1..] == t[1..] + rest;
      GreedyLit(t[1..], rest, patt);
    } else {
      assert t + rest == rest;
    }
  }

  lemma GreedyParamLast(n: string, rest: string, patt: string)
    requires n != [] && '\n' !in n
    requires '}' !in rest && '\n' !in rest
    ensures GreedySubstitute("{" + n + "}" + rest, patt) == Group(n, patt) + GreedySubstitute(rest, patt)
  {
    var s := "{" + n + "}" + rest;
    var e := |n| + 1;
    assert GreedyClose(s) == e by {
      var lineEnd := 1 + IndexOf(s[1..], '\n');
      assert lineEnd == |s| by {
        assert s[1..] == n + "}" + rest;
        assert '\n' !in s[1..];
      }
      assert s[..lineEnd] == s;
      assert s[e] == '}';
      assert s[e + 1..] == rest;
      LastIndexOfIs(s, '}', e);
    }
    assert s[1..e] == n && s[e + 1..] == rest;
  }

  lemma LastIndexOfIs(s: string, c: char, e: nat)
    requires e < |s| && s[e] == c && c !in s[e + 1..]
    ensures LastIndexOf(s, c) == e
  {
  }

  lemma {:induction false} GreedyPlain(t: string, patt: string)
    requires '{' !in t
    ensures GreedySubstitute(t, patt) == t
  {
    GreedyLit(t, [], patt);
    assert t + [] == t;
  }

  lemma SubstituteNoBrace(t: string, patt: string)
    requires '{' !in t
    ensures Substitute(t, patt) == t
  {
    SubstituteLit(t, [], patt);
    assert t + [] == t;
  }
}
