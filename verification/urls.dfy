/** The two pieces of URL handling the proxy relies on: looking up a query
    parameter (`url.searchParams.get`) and taking a URL's origin
    (`new URL(s).origin`). Full URL parsing is not modelled: an inbound URL
    arrives already split into its path and its decoded query pairs, and the
    origin is taken by a plain split of the string. */
module Urls {
  import opened Wrappers

  /** An inbound request URL: its path and its query pairs, in order. */
  datatype Url = Url(pathname: string, query: seq<(string, string)>)

  /** Position of the first pair named `name`, or `|params|` when there is none. */
  function FirstNamed(params: seq<(string, string)>, name: string): (k: nat)
    ensures k <= |params|
    ensures forall j | 0 <= j < k :: params[j].0 != name
    ensures k < |params| ==> params[k].0 == name
  {
    if params == [] then 0
    else if params[0].0 == name then 0
    else 1 + FirstNamed(params[1..], name)
  }

  /** `searchParams.get(name)`: the value of the first pair named `name`, or
      none when no pair has that name. */
  function SearchParamsGet(params: seq<(string, string)>, name: string): (r: Option<string>)
    ensures r.None? <==> forall j | 0 <= j < |params| :: params[j].0 != name
    ensures r.Some? ==> exists k | 0 <= k < |params| ::
                          params[k] == (name, r.value) && forall j | 0 <= j < k :: params[j].0 != name
  {
    var k := FirstNamed(params, name);
    if k < |params| then
      assert params[k] == (name, params[k].1);
      Some(params[k].1)
    else None
  }

  /** The first position at or after `from` whose character satisfies `stop`,
      or `|s|` when there is none. */
  function FindFrom(s: string, from: nat, stop: char -> bool): (k: nat)
    requires from <= |s|
    ensures from <= k <= |s|
    ensures forall j | from <= j < k :: !stop(s[j])
    ensures k < |s| ==> stop(s[k])
    decreases |s| - from
  {
    if from == |s| || stop(s[from]) then from else FindFrom(s, from + 1, stop)
  }

  /** Any position that meets FindFrom's contract is the one FindFrom returns. */
  lemma FindFromUnique(s: string, from: nat, stop: char -> bool, k: nat)
    requires from <= k <= |s|
    requires forall j | from <= j < k :: !stop(s[j])
    requires k < |s| ==> stop(s[k])
    ensures FindFrom(s, from, stop) == k
  {
  }

  predicate IsAlpha(c: char) {
    'a' <= c <= 'z' || 'A' <= c <= 'Z'
  }

  predicate IsSchemeChar(c: char) {
    IsAlpha(c) || '0' <= c <= '9' || c == '+' || c == '-' || c == '.'
  }

  /** A URL scheme: a letter followed by letters, digits, `+`, `-` or `.`. */
  predicate IsScheme(s: string) {
    |s| > 0 && IsAlpha(s[0]) && forall i | 0 <= i < |s| :: IsSchemeChar(s[i])
  }

  predicate IsColon(c: char) {
    c == ':'
  }

  /** The characters that end a URL's authority part. */
  predicate IsAuthorityEnd(c: char) {
    c == '/' || c == '?' || c == '#'
  }

  /** `new URL(u).origin`, split plainly: `scheme://authority` up to the first
      `/`, `?` or `#` after it. None stands for the TypeError that `new URL`
      throws on a string it cannot parse. */
  function Origin(u: string): (r: Option<string>)
    ensures r.Some? ==> r.value <= u
    ensures r.Some? ==> exists c: nat :: SplitsAt(u, c, |r.value|)
  {
    var c := FindFrom(u, 0, IsColon);
    if !IsScheme(u[..c]) || !("://" <= u[c..]) then None
    else
      var e := FindFrom(u, c + 3, IsAuthorityEnd);
      if e == c + 3 then None
      else
        assert SplitsAt(u, c, e);
        Some(u[..e])
  }

  /** `u` reads `scheme://authority…` with the scheme ending at `c` and a
      non-empty authority running up to `e`, which is the end of `u` or the
      first `/`, `?` or `#` after `://`. */
  predicate SplitsAt(u: string, c: nat, e: nat) {
    && c + 3 < e <= |u|
    && IsScheme(u[..c])
    && u[c..c + 3] == "://"
    && (forall j | c + 3 <= j < e :: !IsAuthorityEnd(u[j]))
    && (e < |u| ==> IsAuthorityEnd(u[e]))
  }

  /** Wherever `u` splits as `scheme://authority…`, its origin is the part up
      to the end of the authority; with Origin's own contract, Origin(u) is
      present exactly when `u` splits so. */
  lemma OriginAt(u: string, c: nat, e: nat)
    requires SplitsAt(u, c, e)
    ensures Origin(u) == Some(u[..e])
  {
    assert forall j | 0 <= j < c :: IsSchemeChar(u[..c][j]) && u[j] == u[..c][j];
    FindFromUnique(u, 0, IsColon, c);
    assert u[c..] == u[c..c + 3] + u[c + 3..];
    FindFromUnique(u, c + 3, IsAuthorityEnd, e);
  }

  /** The origin is present exactly when the URL splits as `scheme://authority…`. */
  lemma OriginPresentIff(u: string)
    ensures Origin(u).Some? <==> exists c: nat, e: nat :: SplitsAt(u, c, e)
  {
    if exists c: nat, e: nat :: SplitsAt(u, c, e) {
      var c: nat, e: nat :| SplitsAt(u, c, e);
      OriginAt(u, c, e);
    }
  }

  /** Every `scheme://authority` followed by nothing or by a path, query or
      fragment has that `scheme://authority` as its origin. */
  lemma OriginOfSplit(s: string, a: string, rest: string)
    requires IsScheme(s) && |a| > 0
    requires forall j | 0 <= j < |a| :: !IsAuthorityEnd(a[j])
    requires rest == [] || IsAuthorityEnd(rest[0])
    ensures Origin(s + "://" + a + rest) == Some(s + "://" + a)
  {
    var u := s + "://" + a + rest;
    var c, e := |s|, |s| + 3 + |a|;
    assert u[..c] == s;
    assert u[c..c + 3] == "://";
    assert forall j | c + 3 <= j < e :: u[j] == a[j - c - 3];
    assert e < |u| ==> u[e] == rest[0];
    OriginAt(u, c, e);
    assert u[..e] == s + "://" + a;
  }

  /** The origin of an origin is itself. */
  lemma OriginIdempotent(u: string)
    requires Origin(u).Some?
    ensures Origin(Origin(u).value) == Origin(u)
  {
    var o := Origin(u).value;
    var c := FindFrom(u, 0, IsColon);
    var e := FindFrom(u, c + 3, IsAuthorityEnd);
    assert o == u[..e];
    assert forall j | 0 <= j < e :: o[j] == u[j];
    FindFromUnique(o, 0, IsColon, c);
    assert o[..c] == u[..c];
    assert o[c..c + 3] == u[c..c + 3];
    FindFromUnique(o, c + 3, IsAuthorityEnd, e);
    assert o[..e] == o;
  }
}
