/**
 * The parts of `urllib.parse` the program uses: `urlparse` (through `urlsplit`) to find
 * the network location and the query of a URL, and `parse_qs` to read a query's
 * parameters.
 */
module Urls {
  import opened Wrappers
  import opened Text
  import opened Seqs

  /** `s.split(c)[0]`: the text before the first `c`, or all of `s`. */
  function Before(s: string, c: char): (r: string)
    ensures |r| <= |s| && r == s[..|r|]
    ensures c !in r
    ensures c !in s ==> r == s
    ensures c in s ==> |r| < |s| && s[|r|] == c
  {
    s[..SpanNot(s, {c})]
  }

  /** `s.split(c, 1)[1]`: the text after the first `c`. */
  function After(s: string, c: char): (r: string)
    requires c in s
    ensures s == Before(s, c) + [c] + r
  {
    var n := SpanNot(s, {c});
    assert s == s[..n] + [s[n]] + s[n + 1..];
    s[n + 1..]
  }

  /** The characters `urlsplit` strips from the front of a URL: C0 controls and space. */
  const C0OrSpace: set<char> := set c: char | c <= ' '

  /** The characters `urlsplit` deletes wherever they occur. */
  const Unsafe: set<char> := {'\t', '\r', '\n'}

  /** The characters allowed in a scheme name. */
  predicate IsSchemeChar(c: char) {
    IsLetter(c) || IsDigit(c) || c == '+' || c == '-' || c == '.'
  }

  /** The five components of a split URL. */
  datatype UrlParts = UrlParts(scheme: string, netloc: string, path: string, query: string, fragment: string)

  /** `s` with every tab and line break deleted. */
  function RemoveUnsafe(s: string): (r: string)
    ensures forall c <- r :: c in s && c !in Unsafe
  {
    if s == [] then []
    else (if s[0] in Unsafe then [] else [s[0]]) + RemoveUnsafe(s[1..])
  }

  /** The URL as `urlsplit` sees it after its clean-up. */
  function Cleaned(url: string): (r: string)
    ensures forall c <- r :: c !in Unsafe
  {
    RemoveUnsafe(LStripSet(url, C0OrSpace))
  }

  /** Whether the first `:` of `u`, at index `i`, ends a scheme name. */
  predicate HasScheme(u: string, i: nat) {
    0 < i < |u| && u[i] == ':' && IsLetter(u[0]) && forall k | 0 <= k < i :: IsSchemeChar(u[k])
  }

  /** After a leading `//`, the network location runs up to the first `/`, `?` or `#`. */
  function SplitNetloc(rest: string): (r: (string, string))
    requires StartsWith(rest, "//")
    ensures rest == "//" + r.0 + r.1
    ensures '/' !in r.0 && '?' !in r.0 && '#' !in r.0
    ensures r.1 == [] || r.1[0] in {'/', '?', '#'}
  {
    var n := SpanNot(rest[2..], {'/', '?', '#'});
    assert rest == rest[..2] + rest[2..][..n] + rest[2..][n..];
    (rest[2..][..n], rest[2..][n..])
  }

  /** The scheme and the rest of a cleaned URL; no scheme unless the first `:` ends one. */
  function SplitScheme(u: string): (r: (string, string))
  {
    var i := SpanNot(u, {':'});
    if HasScheme(u, i) then (Lower(u[..i]), u[i + 1..]) else ("", u)
  }

  /** The network location and what follows it; an empty one without a leading `//`. */
  function Authority(rest: string): (r: (string, string))
    ensures '/' !in r.0 && '?' !in r.0 && '#' !in r.0
  {
    if StartsWith(rest, "//") then SplitNetloc(rest) else ("", rest)
  }

  /** Whether a network location has matching brackets, as `urlsplit` demands. */
  predicate BracketsBalanced(netloc: string) {
    ('[' in netloc) == (']' in netloc)
  }

  /** `urlsplit(url)`: `Failure` where it raises `ValueError` for unbalanced brackets. */
  function UrlSplit(url: string): (r: Result<UrlParts, string>)
  {
    SplitAfterScheme(SplitScheme(Cleaned(url)))
  }

  /** The components found after the scheme: network location, path, query, fragment. */
  function SplitAfterScheme(schemeAndRest: (string, string)): (r: Result<UrlParts, string>)
    ensures r.Success? <==> BracketsBalanced(Authority(schemeAndRest.1).0)
    ensures r.Success? ==> r.value.netloc == Authority(schemeAndRest.1).0
  {
    var (scheme, rest) := schemeAndRest;
    var (netloc, tail) := Authority(rest);
    if !BracketsBalanced(netloc) then Failure("Invalid IPv6 URL")
    else
      var beforeFragment := Before(tail, '#');
      var fragment := if '#' in tail then After(tail, '#') else "";
      var path := Before(beforeFragment, '?');
      var query := if '?' in beforeFragment then After(beforeFragment, '?') else "";
      Success(UrlParts(scheme, netloc, path, query, fragment))
  }

  /** `s.replace('+', ' ')`, the first step of `parse_qs`'s decoding of names and values.
      The second step, `unquote` of `%XX` escapes, is not part of this model. */
  function PlusToSpace(s: string): (r: string)
    ensures |r| == |s|
    ensures forall i | 0 <= i < |s| :: r[i] == if s[i] == '+' then ' ' else s[i]
  {
    seq(|s|, i requires 0 <= i < |s| => if s[i] == '+' then ' ' else s[i])
  }

  /** One `&`-separated field of a query: dropped without `=` or with an empty value. */
  function ParseField(field: string): (r: Option<(string, string)>)
    ensures r.Some? ==> r.value.1 != []
  {
    if '=' !in field then None
    else
      var value := After(field, '=');
      if value == [] then None else Some((PlusToSpace(Before(field, '=')), PlusToSpace(value)))
  }

  /** `parse_qsl(query)`: the name/value pairs in order. */
  function QueryPairs(query: string): seq<(string, string)>
  {
    FilterMap(ParseField, SplitStr(query, "&"))
  }

  /** `parse_qs(query)[name][0]`: the first value given for `name`, if any. */
  function FirstValue(pairs: seq<(string, string)>, name: string): (r: Option<string>)
    ensures r.Some? <==> exists k | 0 <= k < |pairs| :: pairs[k].0 == name
    ensures r.Some? ==> exists k | 0 <= k < |pairs| :: pairs[k] == (name, r.value) &&
                                    forall j | 0 <= j < k :: pairs[j].0 != name
  {
    if pairs == [] then None
    else if pairs[0].0 == name then Some(pairs[0].1)
    else
      var r := FirstValue(pairs[1..], name);
      assert forall k | 1 <= k < |pairs| :: pairs[k] == pairs[1..][k - 1];
      r
  }

  /** A scheme name followed by `:` is recognised as the scheme. */
  lemma SchemeOf(scheme: string, after: string)
    requires |scheme| >= 1 && IsLetter(scheme[0]) && forall c <- scheme :: IsSchemeChar(c)
    ensures SplitScheme(scheme + ":" + after) == (Lower(scheme), after)
  {
    var url := scheme + ":" + after;
    assert url == scheme + (":" + after);
    SpanNotConcat(scheme, ":" + after, {':'});
    forall k | 0 <= k < |scheme| ensures IsSchemeChar(url[k]) {
      assert url[k] == scheme[k] && scheme[k] in scheme;
    }
    assert url[..|scheme|] == scheme;
    assert url[|scheme| + 1..] == after;
  }

  /** The network location after `//` is the host when what follows the host starts a
      path, a query or a fragment. */
  lemma SplitNetlocOf(host: string, rest: string)
    requires forall c <- host :: c !in {'/', '?', '#'}
    requires rest == [] || rest[0] in {'/', '?', '#'}
    ensures SplitNetloc("//" + host + rest) == (host, rest)
  {
    assert ("//" + host + rest)[2..] == host + rest;
    SpanNotConcat(host, rest, {'/', '?', '#'});
    assert (host + rest)[..|host|] == host;
    assert (host + rest)[|host|..] == rest;
  }

  /** A URL of the form `scheme://host` followed by a path, query or fragment has `host`
      as its network location. */
  lemma NetlocOf(scheme: string, host: string, rest: string)
    requires |scheme| >= 1 && IsLetter(scheme[0]) && forall c <- scheme :: IsSchemeChar(c)
    requires forall c <- host :: c !in {'/', '?', '#', '[', ']'}
    requires rest == [] || rest[0] in {'/', '?', '#'}
    requires forall c <- host :: ' ' < c && c !in Unsafe
    requires forall c <- rest :: ' ' < c && c !in Unsafe
    ensures UrlSplit(scheme + "://" + host + rest).Success?
    ensures UrlSplit(scheme + "://" + host + rest).value.netloc == host
  {
    CleanUrl(scheme, host, rest);
    SchemeOfUrl(scheme, host, rest);
    AfterSchemeOf(Lower(scheme), host, rest);
  }

  lemma AfterSchemeOf(scheme: string, host: string, rest: string)
    requires forall c <- host :: c !in {'/', '?', '#', '[', ']'}
    requires rest == [] || rest[0] in {'/', '?', '#'}
    ensures SplitAfterScheme((scheme, "//" + host + rest)).Success?
    ensures SplitAfterScheme((scheme, "//" + host + rest)).value.netloc == host
  {
    var after := "//" + host + rest;
    assert after[..2] == "//";
    assert StartsWith(after, "//");
    SplitNetlocOf(host, rest);
    assert Authority(after) == (host, rest);
    assert '[' !in host && ']' !in host;
  }

  lemma SchemeOfUrl(scheme: string, host: string, rest: string)
    requires |scheme| >= 1 && IsLetter(scheme[0]) && forall c <- scheme :: IsSchemeChar(c)
    ensures SplitScheme(scheme + "://" + host + rest) == (Lower(scheme), "//" + host + rest)
  {
    assert scheme + "://" + host + rest == scheme + ":" + ("//" + host + rest);
    SchemeOf(scheme, "//" + host + rest);
  }

  lemma CleanUrl(scheme: string, host: string, rest: string)
    requires forall c <- scheme :: IsSchemeChar(c)
    requires forall c <- host :: ' ' < c && c !in Unsafe
    requires forall c <- rest :: ' ' < c && c !in Unsafe
    ensures Cleaned(scheme + "://" + host + rest) == scheme + "://" + host + rest
  {
    var url := scheme + "://" + host + rest;
    forall c | c in url ensures ' ' < c && c !in Unsafe {
      if c in scheme {
        assert IsSchemeChar(c);
      }
    }
    CleanedNoop(url);
  }

  /** A URL of the form `scheme://host/path?query` has `query` as its query. */
  lemma QueryOf(url: string, scheme: string, host: string, path: string, query: string)
    requires url == scheme + "://" + host + (path + "?" + query)
    requires |scheme| >= 1 && IsLetter(scheme[0]) && forall c <- scheme :: IsSchemeChar(c)
    requires forall c <- host :: c !in {'/', '?', '#', '[', ']'}
    requires |path| >= 1 && path[0] == '/' && '?' !in path && '#' !in path && '#' !in query
    requires forall c <- host :: ' ' < c && c !in Unsafe
    requires forall c <- path :: ' ' < c && c !in Unsafe
    requires forall c <- query :: ' ' < c && c !in Unsafe
    ensures UrlSplit(url).Success? && UrlSplit(url).value.query == query
  {
    var rest := path + "?" + query;
    assert forall c <- rest :: ' ' < c && c !in Unsafe by {
      forall c | c in rest ensures ' ' < c && c !in Unsafe {
        assert c in path || c == '?' || c in query;
      }
    }
    CleanUrl(scheme, host, rest);
    SchemeOfUrl(scheme, host, rest);
    AfterSchemeQuery(Lower(scheme), host, path, query);
    UrlSplitVia(url, (Lower(scheme), "//" + host + rest));
  }

  lemma AfterSchemeQuery(scheme: string, host: string, path: string, query: string)
    requires forall c <- host :: c !in {'/', '?', '#', '[', ']'}
    requires |path| >= 1 && path[0] == '/' && '?' !in path && '#' !in path && '#' !in query
    ensures SplitAfterScheme((scheme, "//" + host + (path + "?" + query))).Success?
    ensures SplitAfterScheme((scheme, "//" + host + (path + "?" + query))).value.query == query
  {
    var rest := path + "?" + query;
    var after := "//" + host + rest;
    assert after[..2] == "//";
    assert StartsWith(after, "//");
    SplitNetlocOf(host, rest);
    assert Authority(after) == (host, rest);
    assert '[' !in host && ']' !in host;
    assert '#' !in rest;
    assert Before(rest, '#') == rest;
    SpanNotConcat(path, "?" + query, {'?'});
    assert rest == path + ("?" + query);
    assert '?' in rest by {
      assert rest[|path|] == '?';
    }
    assert After(rest, '?') == query;
  }

  /** `UrlSplit` of a URL the clean-up leaves alone, given how its scheme splits off. */
  lemma UrlSplitVia(url: string, schemeAndRest: (string, string))
    requires Cleaned(url) == url && SplitScheme(url) == schemeAndRest
    ensures UrlSplit(url) == SplitAfterScheme(schemeAndRest)
  {
  }

  /** A URL with no `:` that does not begin with `//` has an empty network location. */
  lemma NoAuthority(url: string)
    requires ':' !in url && !StartsWith(url, "//")
    requires forall c <- url :: ' ' < c && c !in Unsafe
    ensures UrlSplit(url).Success? && UrlSplit(url).value.netloc == ""
  {
    CleanedNoop(url);
    SpanNotConcat(url, [], {':'});
    assert url + [] == url;
    assert SplitScheme(url) == ("", url);
    assert Authority(url) == ("", url);
  }

  /** A URL that starts with a visible character and has no tab or line break is not
      changed by the clean-up. */
  lemma CleanedNoop(url: string)
    requires forall c <- url :: ' ' < c && c !in Unsafe
    ensures Cleaned(url) == url
  {
    if url != [] {
      assert url[0] in url;
    }
    assert LStripSet(url, C0OrSpace) == url;
    RemoveUnsafeNoop(url);
  }

  lemma {:induction false} RemoveUnsafeNoop(s: string)
    requires forall c <- s :: c !in Unsafe
    ensures RemoveUnsafe(s) == s
  {
    if s != [] {
      assert s[0] in s;
      RemoveUnsafeNoop(s[1..]);
      assert [s[0]] + s[1..] == s;
    }
  }
}
