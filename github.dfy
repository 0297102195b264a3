/**
 * The GitHub client helpers (github/github.go): scope resolution for
 * enterprise / organization / repository runners, the registration-token
 * cache, the enterprise API URL, the busy/offline/not-found probe of a
 * runner, and the pagination loops. Every HTTP call is an oracle: the model
 * takes the server's answers as parameters.
 */
module GitHub {
  import opened Results
  import opened Strings

  // ---------------------------------------------------------------------------
  // Scopes

  datatype ScopeError =
    | InvalidRepositoryName(repository: string)
    | AllScopesEmpty

  /** What an API call is addressed to: an enterprise, or an owner with an optional repository. */
  datatype Scope = Scope(enterprise: string, owner: string, repo: string)

  /** Splits "owner/name"; anything with other than exactly one slash is invalid. */
  function SplitOwnerAndRepo(repo: string): (r: Result<(string, string), ScopeError>)
    ensures r.Ok? <==> multiset(repo)['/'] == 1
    ensures r.Ok? ==> r.value.0 + "/" + r.value.1 == repo
    ensures r.Ok? ==> '/' !in r.value.0 && '/' !in r.value.1
    ensures r.Err? ==> r.error == InvalidRepositoryName(repo)
  {
    var chunk := Split(repo, '/');
    SplitCount(repo, '/');
    if |chunk| != 2 then Err(InvalidRepositoryName(repo))
    else
      JoinSplit(repo, '/');
      assert Join(chunk, '/') == chunk[0] + "/" + chunk[1];
      Ok((chunk[0], chunk[1]))
  }

  /** Every slash-free owner and name survive the round trip through "owner/name". */
  lemma SplitOwnerAndRepoRoundTrip(owner: string, name: string)
    requires '/' !in owner && '/' !in name
    ensures SplitOwnerAndRepo(owner + "/" + name) == Ok((owner, name))
  {
    SplitJoin([owner, name], '/');
    assert Join([owner, name], '/') == owner + "/" + name;
  }

  /**
   * Resolves the configured enterprise, organization and repository into the
   * scope an API call is made for: a repository wins over an organization,
   * which wins over an enterprise.
   */
  function GetEnterpriseOrganizationAndRepo(enterprise: string, org: string, repo: string): (r: Result<Scope, ScopeError>)
    ensures r.Ok? <==> (|repo| > 0 && multiset(repo)['/'] == 1) || (|repo| == 0 && (|org| > 0 || |enterprise| > 0))
    ensures r.Ok? && |repo| > 0 ==> r.value.enterprise == "" && r.value.owner + "/" + r.value.repo == repo
    ensures r.Ok? && |repo| == 0 && |org| > 0 ==> r.value == Scope("", org, "")
    ensures r.Ok? && |repo| == 0 && |org| == 0 ==> r.value == Scope(enterprise, "", "")
    ensures r.Err? ==> r.error == (if |repo| > 0 then InvalidRepositoryName(repo) else AllScopesEmpty)
  {
    if |repo| > 0 then
      match SplitOwnerAndRepo(repo)
      case Ok(parts) => Ok(Scope("", parts.0, parts.1))
      case Err(e) => Err(e)
    else if |org| > 0 then Ok(Scope("", org, ""))
    else if |enterprise| > 0 then Ok(Scope(enterprise, "", ""))
    else Err(AllScopesEmpty)
  }

  // ---------------------------------------------------------------------------
  // Registration-token cache key

  /** The cache key of a registration token: the raw, unresolved scope inputs. */
  function RegistrationKey(org: string, repo: string, enterprise: string): (k: string)
    ensures HasPrefix(k, "org=" + org + ",repo=" + repo + ",")
    ensures HasSuffix(k, ",enterprise=" + enterprise)
    ensures |k| == 22 + |org| + |repo| + |enterprise|
  {
    assert ("org=" + org + ",repo=" + repo + ",enterprise=" + enterprise)[..|"org=" + org + ",repo=" + repo + ","|] == "org=" + org + ",repo=" + repo + ",";
    "org=" + org + ",repo=" + repo + ",enterprise=" + enterprise
  }

  /** The position of the first `c` in `s`, or `|s|` when there is none. */
  function IndexOf(s: string, c: char): nat
    decreases |s|
  {
    if |s| == 0 then 0 else if s[0] == c then 0 else 1 + IndexOf(s[1..], c)
  }

  lemma {:induction false} IndexOfFirst(a: string, c: char, b: string)
    requires c !in a
    ensures IndexOf(a + [c] + b, c) == |a|
    decreases |a|
  {
    if |a| > 0 {
      assert (a + [c] + b)[1..] == a[1..] + [c] + b;
      IndexOfFirst(a[1..], c, b);
    }
  }

  /** A string cut at its first comma determines what precedes and follows that comma. */
  lemma CutAtFirstComma(a: string, b: string, a': string, b': string)
    requires ',' !in a && ',' !in a'
    requires a + "," + b == a' + "," + b'
    ensures a == a' && b == b'
  {
    var s := a + "," + b;
    IndexOfFirst(a, ',', b);
    IndexOfFirst(a', ',', b');
    assert a == s[..|a|] == a';
    assert b == s[|a| + 1..] == b';
  }

  lemma DropPrefix(p: string, x: string, y: string)
    requires p + x == p + y
    ensures x == y
  {
    assert x == (p + x)[|p|..];
    assert y == (p + y)[|p|..];
  }

  /** The key, grouped from the right: each literal is followed by the rest of the key. */
  lemma KeyShape(org: string, repo: string, enterprise: string)
    ensures RegistrationKey(org, repo, enterprise) == "org=" + (org + "," + ("repo=" + (repo + "," + ("enterprise=" + enterprise))))
  {
  }

  /** Comma-free organizations and repositories never share a cache entry with another scope. */
  lemma RegistrationKeyInjective(org: string, repo: string, enterprise: string, org': string, repo': string, enterprise': string)
    requires ',' !in org && ',' !in repo && ',' !in org' && ',' !in repo'
    requires RegistrationKey(org, repo, enterprise) == RegistrationKey(org', repo', enterprise')
    ensures org == org' && repo == repo' && enterprise == enterprise'
  {
    var e, e' := "enterprise=" + enterprise, "enterprise=" + enterprise';
    var r, r' := "repo=" + (repo + "," + e), "repo=" + (repo' + "," + e');
    KeyShape(org, repo, enterprise);
    KeyShape(org', repo', enterprise');
    DropPrefix("org=", org + "," + r, org' + "," + r');
    CutAtFirstComma(org, r, org', r');
    DropPrefix("repo=", repo + "," + e, repo' + "," + e');
    CutAtFirstComma(repo, e, repo', e');
    DropPrefix("enterprise=", enterprise, enterprise');
  }

  /** Without the comma restriction two different scopes can collide on one key. */
  lemma RegistrationKeyCollision()
    ensures RegistrationKey("a,repo=b", "c", "") == RegistrationKey("a", "b,repo=c", "")
  {
  }

  // ---------------------------------------------------------------------------
  // Enterprise API URL

  /** The parts of a parsed URL (`url.Parse`) that the API URL is rebuilt from. */
  datatype Url = Url(scheme: string, host: string, path: string)

  datatype UrlError = UrlParseError(text: string)

  function WithTrailingSlash(path: string): (p: string)
    ensures HasSuffix(p, "/")
  {
    if HasSuffix(path, "/") then path else path + "/"
  }

  /** True when the host is itself an API host ("api." prefix or ".api." inside). */
  predicate IsApiHost(host: string)
  {
    HasPrefix(host, "api.") || Contains(host, ".api.")
  }

  /** True when a path (on a host that is or is not an API host) gets "api/v3/" appended. */
  predicate Appends(path: string, apiHost: bool)
  {
    !HasSuffix(WithTrailingSlash(path), "/api/v3/") && !apiHost
  }

  /** The API path for `path`: slash-terminated, "api/v3/" appended when needed, one trailing slash trimmed. */
  function PathFor(path: string, apiHost: bool): string
  {
    var p := WithTrailingSlash(path);
    TrimSuffix(if Appends(path, apiHost) then p + "api/v3/" else p, "/")
  }

  /** True when the URL does not already denote an API endpoint, so "api/v3/" is appended. */
  predicate AddsApiPath(u: Url)
  {
    Appends(u.path, IsApiHost(u.host))
  }

  /** The path of the API URL. */
  function ApiPath(u: Url): string
  {
    PathFor(u.path, IsApiHost(u.host))
  }

  /** `getEnterpriseApiUrl`: a parse failure is returned; otherwise the URL is rebuilt from scheme, host and API path. */
  function GetEnterpriseApiUrl(parsed: Result<Url, UrlError>): (r: Result<string, UrlError>)
    ensures parsed.Err? ==> r == Err(parsed.error)
    ensures parsed.Ok? ==> r.Ok? && HasPrefix(r.value, parsed.value.scheme + "://" + parsed.value.host)
  {
    match parsed
    case Err(e) => Err(e)
    case Ok(u) =>
      var v := u.scheme + "://" + u.host + ApiPath(u);
      assert v[..|u.scheme + "://" + u.host|] == u.scheme + "://" + u.host;
      Ok(v)
  }

  lemma LastChar(s: string, c: char)
    ensures HasSuffix(s, [c]) <==> |s| > 0 && s[|s| - 1] == c
  {
    if |s| > 0 {
      assert s[|s| - 1..] == [s[|s| - 1]];
    }
  }

  lemma TwoSlashes(s: string)
    ensures HasSuffix(s, "//") <==> |s| >= 2 && s[|s| - 2] == '/' && s[|s| - 1] == '/'
  {
    if |s| >= 2 {
      assert s[|s| - 2..] == [s[|s| - 2], s[|s| - 1]];
    }
  }

  lemma SuffixOfAppend(s: string, t: string)
    ensures HasSuffix(s + t, t)
  {
    assert (s + t)[|s|..] == t;
  }

  lemma TrimAppended(s: string, t: string)
    ensures TrimSuffix(s + t, t) == s
  {
    SuffixOfAppend(s, t);
    assert (s + t)[..|s|] == s;
  }

  /** Text appended after a trailing slash keeps that slash in front of it. */
  lemma SlashThen(p: string, t: string)
    requires HasSuffix(p, "/")
    ensures HasSuffix(p + t, "/" + t)
  {
    LastChar(p, '/');
    var s := p + t;
    assert s[|p| - 1..] == [p[|p| - 1]] + t;
  }

  /** A path that gets "api/v3/" appended: the slash-terminated path and then "api/v3". */
  lemma AppendedPath(path: string, apiHost: bool)
    requires Appends(path, apiHost)
    ensures PathFor(path, apiHost) == WithTrailingSlash(path) + "api/v3"
  {
    var p := WithTrailingSlash(path);
    assert p + "api/v3/" == (p + "api/v3") + "/";
    TrimAppended(p + "api/v3", "/");
  }

  /** A path that is used as is: the slash-terminated path less its last slash. */
  lemma KeptPath(path: string, apiHost: bool)
    requires !Appends(path, apiHost)
    ensures PathFor(path, apiHost) + "/" == WithTrailingSlash(path)
  {
    var p := WithTrailingSlash(path);
    LastChar(p, '/');
    assert p == p[..|p| - 1] + "/";
    TrimAppended(p[..|p| - 1], "/");
  }

  lemma SuffixSplit(s: string, t: string)
    requires HasSuffix(s, t)
    ensures s == TrimSuffix(s, t) + t
  {
  }

  lemma PathTargetsApiV3(path: string)
    ensures HasSuffix(PathFor(path, false), "/api/v3")
  {
    var p := WithTrailingSlash(path);
    if Appends(path, false) {
      AppendedPath(path, false);
      SlashThen(p, "api/v3");
      assert "/" + "api/v3" == "/api/v3";
    } else {
      KeptPath(path, false);
      KeptTargetsApiV3(p, PathFor(path, false));
    }
  }

  lemma KeptTargetsApiV3(p: string, t: string)
    requires HasSuffix(p, "/api/v3/") && t + "/" == p
    ensures HasSuffix(t, "/api/v3")
  {
    var w := TrimSuffix(p, "/api/v3/");
    SuffixSplit(p, "/api/v3/");
    assert p == (w + "/api/v3") + "/";
    assert t == w + "/api/v3" by {
      assert t == p[..|p| - 1];
    }
    SuffixOfAppend(w, "/api/v3");
  }

  /** The rebuilt URL targets "/api/v3" unless the host itself is an API host. */
  lemma ApiPathTargetsApiV3(u: Url)
    requires !HasPrefix(u.host, "api.") && !Contains(u.host, ".api.")
    ensures HasSuffix(ApiPath(u), "/api/v3")
  {
    PathTargetsApiV3(u.path);
  }

  lemma PathEndsInSlash(path: string, apiHost: bool)
    ensures HasSuffix(PathFor(path, apiHost), "/") <==> !Appends(path, apiHost) && HasSuffix(path, "//")
  {
    var p := WithTrailingSlash(path);
    var t := PathFor(path, apiHost);
    LastChar(t, '/');
    TwoSlashes(path);
    if Appends(path, apiHost) {
      AppendedPath(path, apiHost);
      assert t[|t| - 1] == '3';
    } else {
      KeptPath(path, apiHost);
      LastChar(path, '/');
      if HasSuffix(path, "/") {
        assert p == path == t + "/";
      } else {
        assert p == path + "/";
        assert t == path;
      }
    }
  }

  /**
   * The trailing-slash trim leaves a slash at the end exactly when nothing was
   * appended and the path already ended in two slashes.
   */
  lemma ApiPathEndsInSlash(u: Url)
    ensures HasSuffix(ApiPath(u), "/") <==> !AddsApiPath(u) && HasSuffix(u.path, "//")
  {
    PathEndsInSlash(u.path, IsApiHost(u.host));
  }

  lemma TrimSlashAfterAdding(t: string)
    requires !HasSuffix(t, "/")
    ensures TrimSuffix(WithTrailingSlash(t), "/") == t
  {
    TrimAppended(t, "/");
  }

  /** Appending text that does not end in a slash to a slash-terminated path, then re-adding the slash. */
  lemma ReslashAppended(p: string, x: string)
    requires HasSuffix(p, "/") && |x| > 0 && x[|x| - 1] != '/'
    ensures !HasSuffix(p + x, "/")
    ensures HasSuffix(WithTrailingSlash(p + x), "/" + x + "/")
  {
    var t := p + x;
    LastChar(t, '/');
    assert t[|t| - 1] == x[|x| - 1];
    assert WithTrailingSlash(t) == p + (x + "/");
    SlashThen(p, x + "/");
    assert "/" + (x + "/") == "/" + x + "/";
  }

  /** A slash-terminated path with "api/v3" appended gets nothing appended again. */
  lemma NoSecondAppend(p: string, t: string)
    requires HasSuffix(p, "/") && t == p + "api/v3"
    ensures !Appends(t, false) && !HasSuffix(t, "/")
  {
    ReslashAppended(p, "api/v3");
    assert "/" + "api/v3" + "/" == "/api/v3/";
  }

  lemma RebuildPathAfterAppend(path: string, apiHost: bool)
    requires Appends(path, apiHost)
    ensures !Appends(PathFor(path, apiHost), apiHost)
    ensures !HasSuffix(PathFor(path, apiHost), "/")
  {
    AppendedPath(path, apiHost);
    NoSecondAppend(WithTrailingSlash(path), PathFor(path, apiHost));
  }

  /** After "api/v3/" was appended, the rebuilt path already ends in "/api/v3/" and nothing more is added. */
  lemma RebuildAfterAppend(u: Url)
    requires AddsApiPath(u)
    ensures !AddsApiPath(Url(u.scheme, u.host, ApiPath(u)))
    ensures !HasSuffix(ApiPath(u), "/")
  {
    RebuildPathAfterAppend(u.path, IsApiHost(u.host));
  }

  /** Without the append, the rebuilt path gets back exactly the slash that was trimmed. */
  lemma RebuildWithoutAppend(u: Url)
    requires !AddsApiPath(u) && !HasSuffix(u.path, "//")
    ensures WithTrailingSlash(ApiPath(u)) == WithTrailingSlash(u.path)
    ensures !HasSuffix(ApiPath(u), "/")
  {
    PathEndsInSlash(u.path, IsApiHost(u.host));
    KeptPath(u.path, IsApiHost(u.host));
  }

  /** Rebuilding the API URL from its own result changes nothing (barring a path that ends in "//"). */
  lemma ApiUrlIdempotent(u: Url)
    requires !HasSuffix(u.path, "//")
    ensures ApiPath(Url(u.scheme, u.host, ApiPath(u))) == ApiPath(u)
    ensures GetEnterpriseApiUrl(Ok(Url(u.scheme, u.host, ApiPath(u)))) == GetEnterpriseApiUrl(Ok(u))
  {
    var t := ApiPath(u);
    var u' := Url(u.scheme, u.host, t);
    if AddsApiPath(u) {
      RebuildAfterAppend(u);
    } else {
      RebuildWithoutAppend(u);
      assert !AddsApiPath(u');
    }
    TrimSlashAfterAdding(t);
    assert ApiPath(u') == TrimSuffix(WithTrailingSlash(t), "/");
  }

  // ---------------------------------------------------------------------------
  // API calls, endpoints and pagination

  /** How a failed API call failed; callers only tell a rate-limit error apart. */
  datatype ApiError = RateLimitError | OtherApiError

  /** The endpoint family a scoped call goes to, chosen as the `createRegistrationToken`, `removeRunner` and `listRunners` wrappers do. */
  datatype Endpoint =
    | RepositoryEndpoint(owner: string, repo: string)
    | OrganizationEndpoint(org: string)
    | EnterpriseEndpoint(enterprise: string)

  function EndpointFor(s: Scope): (e: Endpoint)
    ensures e.RepositoryEndpoint? <==> |s.repo| > 0
    ensures e.OrganizationEndpoint? <==> |s.repo| == 0 && |s.owner| > 0
  {
    if |s.repo| > 0 then RepositoryEndpoint(s.owner, s.repo)
    else if |s.owner| > 0 then OrganizationEndpoint(s.owner)
    else EnterpriseEndpoint(s.enterprise)
  }

  /**
   * The endpoint follows the precedence of the configured inputs: a repository
   * "owner/name" with a non-empty name goes to the repository endpoint, an
   * organization to the organization endpoint, otherwise the enterprise.
   */
  lemma EndpointPrecedence(enterprise: string, org: string, repo: string)
    requires GetEnterpriseOrganizationAndRepo(enterprise, org, repo).Ok?
    ensures var e := EndpointFor(GetEnterpriseOrganizationAndRepo(enterprise, org, repo).value);
      && (|repo| > 0 && repo[|repo| - 1] != '/' ==> e.RepositoryEndpoint? && e.owner + "/" + e.repo == repo)
      && (|repo| == 0 && |org| > 0 ==> e == OrganizationEndpoint(org))
      && (|repo| == 0 && |org| == 0 ==> e == EnterpriseEndpoint(enterprise))
  {
    if |repo| > 0 {
      var parts := SplitOwnerAndRepo(repo).value;
      assert repo == parts.0 + "/" + parts.1;
      if parts.1 == "" {
        assert repo[|repo| - 1] == '/';
      }
    }
  }

  /** A repository given with a trailing slash ("octo/") resolves to an organization-level call for "octo". */
  lemma TrailingSlashRepositoryIsOrganizationCall()
    ensures GetEnterpriseOrganizationAndRepo("", "", "octo/") == Ok(Scope("", "octo", ""))
    ensures EndpointFor(Scope("", "octo", "")) == OrganizationEndpoint("octo")
  {
    SplitOwnerAndRepoRoundTrip("octo", "");
    assert "octo" + "/" + "" == "octo/";
  }

  datatype ListOptions = ListOptions(perPage: int, page: int)

  /** One answer of a paginated list endpoint: a page of items and the next page number (0: none), or a failure. */
  datatype Page<T> = Page(items: seq<T>, nextPage: int) | PageFailed(error: ApiError)

  /** A response after which the loop asks for nothing more. */
  predicate EndsListing<T>(p: Page<T>)
  {
    p.PageFailed? || p.nextPage == 0
  }

  /** The number of the response that ends the listing: the first failure or the first page without a successor. */
  ghost function FinalResponse<T>(pages: nat -> Page<T>, from: nat, stop: nat): (k: nat)
    requires from <= stop && EndsListing(pages(stop))
    ensures from <= k <= stop && EndsListing(pages(k))
    ensures forall j :: from <= j < k ==> !EndsListing(pages(j))
    decreases stop - from
  {
    if EndsListing(pages(from)) then from else FinalResponse(pages, from + 1, stop)
  }

  /** A response that ends the listing after `k` that did not is the final one. */
  lemma {:induction false} FinalResponseIs<T>(pages: nat -> Page<T>, from: nat, k: nat, stop: nat)
    requires from <= k <= stop && EndsListing(pages(stop)) && EndsListing(pages(k))
    requires forall j :: from <= j < k ==> !EndsListing(pages(j))
    ensures FinalResponse(pages, from, stop) == k
    decreases k - from
  {
    if from < k {
      FinalResponseIs(pages, from + 1, k, stop);
    }
  }

  /** The items of responses 0 to n-1, concatenated in order. */
  ghost function ItemsOf<T>(pages: nat -> Page<T>, n: nat): seq<T>
    requires forall j :: 0 <= j < n ==> pages(j).Page?
  {
    if n == 0 then [] else ItemsOf(pages, n - 1) + pages(n - 1).items
  }

  /** The options of request k: 100 items per page, and the page number the previous response named (none for the first). */
  ghost function RequestOptions<T>(pages: nat -> Page<T>, k: nat): ListOptions
    requires k > 0 ==> pages(k - 1).Page?
  {
    ListOptions(100, if k == 0 then 0 else pages(k - 1).nextPage)
  }

  /**
   * What the page loop gathers when the server answers request k with
   * `pages(k)`: the items of every page up to the one that ends the listing and
   * the error of that response, if it failed.
   */
  ghost function Gathered<T>(pages: nat -> Page<T>, stop: nat): (seq<T>, Option<ApiError>)
    requires EndsListing(pages(stop))
  {
    var k := FinalResponse(pages, 0, stop);
    match pages(k)
    case Page(items, _) => (ItemsOf(pages, k) + items, None)
    case PageFailed(e) => (ItemsOf(pages, k), Some(e))
  }

  /**
   * The page loop shared by the list operations: requests pages of 100 until a
   * response names no next page, appending each page's items, and stops at the
   * first failed request. `stop` is a response of the server that ends the
   * listing.
   */
  method FetchPages<T>(pages: nat -> Page<T>, ghost stop: nat) returns (items: seq<T>, failed: Option<ApiError>, requests: seq<ListOptions>)
    requires EndsListing(pages(stop))
    ensures (items, failed) == Gathered(pages, stop)
    ensures var k := FinalResponse(pages, 0, stop);
      |requests| == k + 1 && forall j :: 0 <= j <= k ==> requests[j] == RequestOptions(pages, j)
  {
    items, failed, requests := [], None, [];
    var opts := ListOptions(100, 0);
    var k: nat := 0;
    while true
      invariant k <= stop
      invariant forall j :: 0 <= j < k ==> !EndsListing(pages(j))
      invariant items == ItemsOf(pages, k)
      invariant opts == RequestOptions(pages, k)
      invariant |requests| == k
      invariant forall j :: 0 <= j < k ==> requests[j] == RequestOptions(pages, j)
      decreases stop - k
    {
      requests := requests + [opts];
      var res := pages(k);
      if EndsListing(res) {
        FinalResponseIs(pages, 0, k, stop);
      }
      if res.PageFailed? {
        failed := Some(res.error);
        return;
      }
      items := items + res.items;
      if res.nextPage == 0 {
        return;
      }
      opts := opts.(page := res.nextPage);
      k := k + 1;
    }
  }

  datatype ListError = ListScopeError(scope: ScopeError) | ListCallFailed(cause: ApiError)

  /** A self-hosted runner as the list-runners API reports it. */
  datatype Runner = Runner(id: int, name: string, status: string, busy: bool)

  /** A list request as issued: the endpoint and the page options. */
  datatype ListRequest = ListRequest(endpoint: Endpoint, options: ListOptions)

  /** What `ListRunners` returns when the server answers request k with `pages(k)`: the runners gathered and the error, if any. */
  ghost function RunnersListed(enterprise: string, org: string, repo: string, pages: nat -> Page<Runner>, stop: nat): (seq<Runner>, Option<ListError>)
    requires EndsListing(pages(stop))
  {
    match GetEnterpriseOrganizationAndRepo(enterprise, org, repo)
    case Err(e) => ([], Some(ListScopeError(e)))
    case Ok(_) =>
      var (items, failed) := Gathered(pages, stop);
      (items, if failed.Some? then Some(ListCallFailed(failed.value)) else None)
  }

  /**
   * `ListRunners`: resolves the scope, then runs the page loop against its
   * endpoint; on a failed request it returns what it has gathered so far
   * together with the error.
   */
  method ListRunners(enterprise: string, org: string, repo: string, pages: nat -> Page<Runner>, ghost stop: nat)
    returns (runners: seq<Runner>, err: Option<ListError>, requests: seq<ListRequest>)
    requires EndsListing(pages(stop))
    ensures (runners, err) == RunnersListed(enterprise, org, repo, pages, stop)
    ensures GetEnterpriseOrganizationAndRepo(enterprise, org, repo).Err? ==> requests == []
    ensures GetEnterpriseOrganizationAndRepo(enterprise, org, repo).Ok? ==>
      var k := FinalResponse(pages, 0, stop);
      && |requests| == k + 1
      && forall j :: 0 <= j <= k ==> requests[j] == ListRequest(EndpointFor(GetEnterpriseOrganizationAndRepo(enterprise, org, repo).value), RequestOptions(pages, j))
  {
    var scope := GetEnterpriseOrganizationAndRepo(enterprise, org, repo);
    if scope.Err? {
      return [], Some(ListScopeError(scope.error)), [];
    }
    var endpoint := EndpointFor(scope.value);
    var failed, options;
    runners, failed, options := FetchPages(pages, stop);
    err := if failed.Some? then Some(ListCallFailed(failed.value)) else None;
    requests := seq(|options|, i requires 0 <= i < |options| => ListRequest(endpoint, options[i]));
  }

  /** A repository that a runner group gives access to. */
  datatype Repository = Repository(fullName: string)

  /** What `ListRunnerGroupRepositoryAccesses` returns: every repository, or nothing on any failure. */
  ghost function RepositoryAccessesListed(pages: nat -> Page<Repository>, stop: nat): (seq<Repository>, Option<ApiError>)
    requires EndsListing(pages(stop))
  {
    var (items, failed) := Gathered(pages, stop);
    if failed.Some? then ([], failed) else (items, None)
  }

  /** A request for one page of the repositories a runner group of an organization gives access to. */
  datatype RepositoryAccessRequest = RepositoryAccessRequest(org: string, runnerGroupId: int, options: ListOptions)

  /** `ListRunnerGroupRepositoryAccesses`: the same page loop, but a failed request discards what was gathered. */
  method ListRunnerGroupRepositoryAccesses(org: string, runnerGroupId: int, pages: nat -> Page<Repository>, ghost stop: nat)
    returns (repos: seq<Repository>, err: Option<ApiError>, requests: seq<RepositoryAccessRequest>)
    requires EndsListing(pages(stop))
    ensures (repos, err) == RepositoryAccessesListed(pages, stop)
    ensures var k := FinalResponse(pages, 0, stop);
      |requests| == k + 1 && forall j :: 0 <= j <= k ==> requests[j] == RepositoryAccessRequest(org, runnerGroupId, RequestOptions(pages, j))
  {
    var options;
    repos, err, options := FetchPages(pages, stop);
    if err.Some? {
      repos := [];
    }
    requests := seq(|options|, i requires 0 <= i < |options| => RepositoryAccessRequest(org, runnerGroupId, options[i]));
  }

  /** The path of the runner-groups-visible-to-repository request, before its page options. */
  function RunnerGroupsPath(org: string, repo: string): string
  {
    "orgs/" + org + "/actions/runner-groups?visible_to_repository=" + repo
  }

  /** A query parameter as `fmt` renders "&name=value". */
  function QueryParam(name: string, value: nat): (q: string)
    ensures |q| > 0
  {
    "&" + name + "=" + Decimal(value)
  }

  /** The value of a query parameter reads back from the text after its name and `=`. */
  lemma QueryParamReadBack(name: string, value: nat)
    ensures var q := QueryParam(name, value);
      && HasPrefix(q, "&" + name + "=")
      && (forall i :: |name| + 2 <= i < |q| ==> IsDigit(q[i]))
      && DecimalValue(q[|name| + 2..]) == value
  {
    var q := QueryParam(name, value);
    assert q[..|name| + 2] == "&" + name + "=";
    assert q[|name| + 2..] == Decimal(value);
    DecimalRoundTrip(value);
  }

  /** `listOrganizationRunnerGroupsVisibleToRepo`'s request path: only positive page options are added, page size first. */
  function RunnerGroupsVisibleToRepoPath(org: string, repo: string, opts: Option<ListOptions>): (u: string)
    ensures HasPrefix(u, RunnerGroupsPath(org, repo))
    ensures u == RunnerGroupsPath(org, repo) <==> opts.None? || (opts.value.perPage <= 0 && opts.value.page <= 0)
    ensures opts.Some? ==>
      u == RunnerGroupsPath(org, repo)
           + (if opts.value.perPage > 0 then QueryParam("per_page", opts.value.perPage) else "")
           + (if opts.value.page > 0 then QueryParam("page", opts.value.page) else "")
  {
    var base := RunnerGroupsPath(org, repo);
    match opts
    case None => base
    case Some(o) =>
      var size := if o.perPage > 0 then QueryParam("per_page", o.perPage) else "";
      var page := if o.page > 0 then QueryParam("page", o.page) else "";
      assert (base + size + page)[..|base|] == base;
      assert |base + size + page| == |base| <==> size == "" && page == "";
      base + size + page
  }

  /** The last parameter of the path is the page number when one is given, else the page size when one is given. */
  lemma RunnerGroupsPathEndsWithLastOption(org: string, repo: string, o: ListOptions)
    ensures o.page > 0 ==> HasSuffix(RunnerGroupsVisibleToRepoPath(org, repo, Some(o)), QueryParam("page", o.page))
    ensures o.page <= 0 && o.perPage > 0 ==> HasSuffix(RunnerGroupsVisibleToRepoPath(org, repo, Some(o)), QueryParam("per_page", o.perPage))
  {
    var base := RunnerGroupsPath(org, repo);
    var size := if o.perPage > 0 then QueryParam("per_page", o.perPage) else "";
    if o.page > 0 {
      SuffixOfAppend(base + size, QueryParam("page", o.page));
    } else if o.perPage > 0 {
      assert RunnerGroupsVisibleToRepoPath(org, repo, Some(o)) == base + size;
      SuffixOfAppend(base, size);
    }
  }

  // ---------------------------------------------------------------------------
  // Busy probe

  datatype BusyError =
    | RunnerOffline(runnerName: string)
    | RunnerNotFound(runnerName: string)
    | BusyListFailed(cause: ListError)

  /** The index of the first runner called `name`, or `|runners|` when there is none. */
  function FirstNamed(runners: seq<Runner>, name: string): (i: nat)
    ensures i <= |runners|
    ensures i < |runners| ==> runners[i].name == name
    ensures forall j :: 0 <= j < i ==> runners[j].name != name
    decreases |runners|
  {
    if |runners| == 0 then 0
    else if runners[0].name == name then 0
    else 1 + FirstNamed(runners[1..], name)
  }

  /**
   * The search loop of `IsRunnerBusy`: the first runner with the given name
   * gives its busy flag, with a `RunnerOffline` error when its status is
   * "offline"; no such runner is `RunnerNotFound`.
   */
  method FindRunner(runners: seq<Runner>, name: string) returns (busy: bool, err: Option<BusyError>)
    ensures var i := FirstNamed(runners, name);
      && (i == |runners| ==> !busy && err == Some(RunnerNotFound(name)))
      && (i < |runners| ==>
            busy == runners[i].busy && err == (if runners[i].status == "offline" then Some(RunnerOffline(name)) else None))
  {
    var i := 0;
    while i < |runners|
      invariant 0 <= i <= |runners|
      invariant forall j :: 0 <= j < i ==> runners[j].name != name
    {
      if runners[i].name == name {
        if runners[i].status == "offline" {
          return runners[i].busy, Some(RunnerOffline(name));
        }
        return runners[i].busy, None;
      }
      i := i + 1;
    }
    return false, Some(RunnerNotFound(name));
  }

  /**
   * `IsRunnerBusy`: lists the scope's runners and looks the name up among
   * them; a failed listing is passed on with busy = false.
   */
  method IsRunnerBusy(enterprise: string, org: string, repo: string, name: string, pages: nat -> Page<Runner>, ghost stop: nat)
    returns (busy: bool, err: Option<BusyError>)
    requires EndsListing(pages(stop))
    ensures var (runners, listErr) := RunnersListed(enterprise, org, repo, pages, stop);
      var i := FirstNamed(runners, name);
      && (listErr.Some? ==> !busy && err == Some(BusyListFailed(listErr.value)))
      && (listErr.None? && i == |runners| ==> !busy && err == Some(RunnerNotFound(name)))
      && (listErr.None? && i < |runners| ==>
            busy == runners[i].busy && err == (if runners[i].status == "offline" then Some(RunnerOffline(name)) else None))
  {
    var runners, listErr, _ := ListRunners(enterprise, org, repo, pages, stop);
    if listErr.Some? {
      return false, Some(BusyListFailed(listErr.value));
    }
    busy, err := FindRunner(runners, name);
  }

  // ---------------------------------------------------------------------------
  // Registration-token cache

  /** A registration token and the time it expires, in nanoseconds. */
  datatype RegistrationToken = RegistrationToken(token: string, expiresAt: int)

  const Minute: int := 60 * 1_000_000_000

  /** How long a cached token must still be valid to be handed out: the runner's start-up allowance. */
  const RunnerStartupTimeout: int := 30 * Minute

  /** A cached token is handed out at `now` only when it expires strictly after `now` plus the start-up allowance. */
  predicate IsFresh(t: RegistrationToken, now: int)
  {
    t.expiresAt > now + RunnerStartupTimeout
  }

  /** A token has expired at `now` when its expiry lies strictly before `now`. */
  predicate IsExpired(t: RegistrationToken, now: int)
  {
    t.expiresAt < now
  }

  /** The cache as `cleanup` leaves it at `now`: every entry that has not expired, unchanged, and nothing else. */
  function Unexpired(cache: map<string, RegistrationToken>, now: int): (r: map<string, RegistrationToken>)
    ensures forall k :: k in r <==> k in cache && !IsExpired(cache[k], now)
    ensures forall k :: k in r ==> r[k] == cache[k]
  {
    map k | k in cache && !IsExpired(cache[k], now) :: cache[k]
  }

  /** Two clean-ups amount to one at the later of the two times. */
  lemma UnexpiredTwice(cache: map<string, RegistrationToken>, t1: int, t2: int)
    ensures Unexpired(Unexpired(cache, t1), t2) == Unexpired(cache, if t1 < t2 then t2 else t1)
  {
    var later := if t1 < t2 then t2 else t1;
    assert Unexpired(Unexpired(cache, t1), t2).Keys == Unexpired(cache, later).Keys;
  }

  /** A token stored at `now` is still in the cache and handed out at any later time at which it is fresh. */
  lemma StoredTokenIsServed(cache: map<string, RegistrationToken>, key: string, t: RegistrationToken, now: int, later: int)
    requires now <= later && IsFresh(t, later)
    ensures key in Unexpired(cache[key := t], now)
    ensures Unexpired(cache[key := t], now)[key] == t
  {
  }

  /** What the token-creation endpoint answered: a token with the HTTP status, or a failure. */
  datatype CreateTokenResponse =
    | TokenCreated(token: RegistrationToken, statusCode: int)
    | CreateTokenFailed(cause: ApiError)

  datatype TokenError =
    | TokenScopeError(scope: ScopeError)
    | TokenCreateError(cause: ApiError)
    | UnexpectedStatus(statusCode: int)

  /** The client's registration-token cache, keyed by the raw scope inputs. */
  class Client {
    var regTokens: map<string, RegistrationToken>

    constructor ()
      ensures regTokens == map[]
    {
      regTokens := map[];
    }

    /** `cleanup`: deletes every expired entry, visiting the entries one at a time. */
    method Cleanup(now: int)
      modifies this
      ensures regTokens == Unexpired(old(regTokens), now)
    {
      ghost var original := regTokens;
      var keys := regTokens.Keys;
      while keys != {}
        invariant keys <= original.Keys
        invariant regTokens == map k | k in original && (k in keys || !IsExpired(original[k], now)) :: original[k]
        decreases keys
      {
        var key :| key in keys;
        if IsExpired(regTokens[key], now) {
          regTokens := map k | k in regTokens && k != key :: regTokens[k];
        }
        keys := keys - {key};
      }
      assert regTokens.Keys == Unexpired(original, now).Keys;
    }

    /**
     * `GetRegistrationToken`: hands out the cached token for the raw scope key
     * when it is fresh, without calling the API; otherwise resolves the scope
     * (a bad scope returns the cached entry, stale or absent, with the error),
     * asks the endpoint of that scope for a token, and caches it (then cleans
     * the cache up) only after a 201 answer. `name` is not used.
     */
    method GetRegistrationToken(enterprise: string, org: string, repo: string, name: string, now: int, create: Endpoint -> CreateTokenResponse)
      returns (rt: Option<RegistrationToken>, err: Option<TokenError>, called: Option<Endpoint>)
      modifies this
      ensures var key := RegistrationKey(org, repo, enterprise);
        var cached := if key in old(regTokens) then Some(old(regTokens)[key]) else None;
        var scope := GetEnterpriseOrganizationAndRepo(enterprise, org, repo);
        if cached.Some? && IsFresh(cached.value, now) then
          rt == cached && err == None && called == None && regTokens == old(regTokens)
        else if scope.Err? then
          rt == cached && err == Some(TokenScopeError(scope.error)) && called == None && regTokens == old(regTokens)
        else
          var endpoint := EndpointFor(scope.value);
          called == Some(endpoint) &&
          match create(endpoint)
          case CreateTokenFailed(cause) =>
            rt == None && err == Some(TokenCreateError(cause)) && regTokens == old(regTokens)
          case TokenCreated(token, status) =>
            if status != 201 then
              rt == None && err == Some(UnexpectedStatus(status)) && regTokens == old(regTokens)
            else
              rt == Some(token) && err == None && regTokens == Unexpired(old(regTokens)[key := token], now)
    {
      var key := RegistrationKey(org, repo, enterprise);
      var cached := if key in regTokens then Some(regTokens[key]) else None;
      if cached.Some? && IsFresh(cached.value, now) {
        return cached, None, None;
      }
      var scope := GetEnterpriseOrganizationAndRepo(enterprise, org, repo);
      if scope.Err? {
        return cached, Some(TokenScopeError(scope.error)), None;
      }
      var endpoint := EndpointFor(scope.value);
      called := Some(endpoint);
      var res := create(endpoint);
      if res.CreateTokenFailed? {
        return None, Some(TokenCreateError(res.cause)), called;
      }
      if res.statusCode != 201 {
        return None, Some(UnexpectedStatus(res.statusCode)), called;
      }
      regTokens := regTokens[key := res.token];
      Cleanup(now);
      return Some(res.token), None, called;
    }
  }
}
