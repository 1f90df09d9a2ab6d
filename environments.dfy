/**
 * public/dev-ops/environments.php: the branch listing the DevBar loads,
 * split into main and feature branches per project and cached for 60
 * seconds in one file. The clock, the environment, the GitLab fetch and
 * JSON encoding are parameters; the cache file is an object the request
 * updates in place.
 */
module Environments {
  import opened Wrappers

  /** `BranchGroup` of src/components/DevBar/types.ts. */
  datatype BranchGroup = BranchGroup(main: seq<string>, feature: seq<string>)

  /** One branch object of the GitLab reply; only its `name` is read, and it may be missing. */
  datatype BranchRecord = BranchRecord(name: Option<string>)

  /** `$branch['name'] ?? ''`. */
  function NameOf(b: BranchRecord): string
  {
    b.name.GetOr("")
  }

  /** The names of a reply, in order. */
  function Names(branches: seq<BranchRecord>): (names: seq<string>)
    ensures |names| == |branches|
    ensures forall i :: 0 <= i < |branches| ==> names[i] == NameOf(branches[i])
  {
    seq(|branches|, i requires 0 <= i < |branches| => NameOf(branches[i]))
  }

  /** `$mainBranches`. */
  const MainBranches: set<string> := {"main", "master", "staging", "production"}
  /** `$excludedBranches`. */
  const Excluded: set<string> := {"master"}

  /** A name listed under `main`. */
  predicate IsMainName(n: string)
  {
    n !in Excluded && n in MainBranches
  }

  /** A name listed under `feature`. */
  predicate IsFeatureName(n: string)
  {
    n !in Excluded && n !in MainBranches
  }

  /** The names kept under `main`, in input order. */
  function MainOf(names: seq<string>): seq<string>
  {
    if names == [] then []
    else (if IsMainName(names[0]) then [names[0]] else []) + MainOf(names[1..])
  }

  /** The names kept under `feature`, in input order. */
  function FeatureOf(names: seq<string>): seq<string>
  {
    if names == [] then []
    else (if IsFeatureName(names[0]) then [names[0]] else []) + FeatureOf(names[1..])
  }

  /** What `categorizeBranches` returns for a reply. */
  function Categorized(branches: seq<BranchRecord>): BranchGroup
  {
    BranchGroup(MainOf(Names(branches)), FeatureOf(Names(branches)))
  }

  /** Filtering one more name extends the filtered prefix. */
  lemma {:induction false} FiltersSnoc(names: seq<string>, n: string)
    ensures MainOf(names + [n]) == MainOf(names) + (if IsMainName(n) then [n] else [])
    ensures FeatureOf(names + [n]) == FeatureOf(names) + (if IsFeatureName(n) then [n] else [])
  {
    if names == [] {
      assert [n][1..] == [];
    } else {
      assert (names + [n])[1..] == names[1..] + [n];
      FiltersSnoc(names[1..], n);
    }
  }

  /** `categorizeBranches($branches)`: one pass that skips `master` and appends every other name to its group. */
  method CategorizeBranches(branches: seq<BranchRecord>) returns (result: BranchGroup)
    ensures result == Categorized(branches)
  {
    result := BranchGroup([], []);
    for i := 0 to |branches|
      invariant result == BranchGroup(MainOf(Names(branches)[..i]), FeatureOf(Names(branches)[..i]))
    {
      var branchName := NameOf(branches[i]);
      FiltersSnoc(Names(branches)[..i], branchName);
      assert Names(branches)[..i + 1] == Names(branches)[..i] + [branchName];
      if branchName in Excluded {
        continue;
      }
      if branchName in MainBranches {
        result := result.(main := result.main + [branchName]);
      } else {
        result := result.(feature := result.feature + [branchName]);
      }
    }
    assert Names(branches)[..|branches|] == Names(branches);
  }

  /**
   * Every name of the input lands in exactly one place: `master` nowhere,
   * `main`, `staging` and `production` under `main`, everything else
   * (the empty name of a record without one included) under `feature`.
   */
  lemma {:induction false} CategorizedIsPartition(names: seq<string>)
    ensures forall n :: (multiset(MainOf(names))[n] + multiset(FeatureOf(names))[n]
      == if n == "master" then 0 else multiset(names)[n])
    ensures |MainOf(names)| + |FeatureOf(names)| == |names| - multiset(names)["master"]
  {
    if names != [] {
      CategorizedIsPartition(names[1..]);
      assert names == [names[0]] + names[1..];
    }
  }

  /** `main` holds exactly the input's `main`, `staging` and `production` entries. */
  lemma {:induction false} MainMembers(names: seq<string>)
    ensures forall n :: n in MainOf(names) <==> n in names && n in {"main", "staging", "production"}
  {
    if names != [] {
      MainMembers(names[1..]);
      assert names == [names[0]] + names[1..];
    }
  }

  /** `feature` holds exactly the input's entries that are not among the main names. */
  lemma {:induction false} FeatureMembers(names: seq<string>)
    ensures forall n :: n in FeatureOf(names) <==> n in names && n !in MainBranches
  {
    if names != [] {
      FeatureMembers(names[1..]);
      assert names == [names[0]] + names[1..];
    }
  }

  /** No group ever lists `master`, and the group sizes add up to the input minus its `master` entries. */
  lemma GroupSizes(branches: seq<BranchRecord>)
    ensures var g := Categorized(branches);
      && "master" !in g.main && "master" !in g.feature
      && |g.main| + |g.feature| == |branches| - multiset(Names(branches))["master"]
  {
    var names := Names(branches);
    CategorizedIsPartition(names);
    MainMembers(names);
    FeatureMembers(names);
  }

  /** A listing with `master` among main and feature branches. */
  lemma CategorizeExample()
    ensures var names := ["main", "staging", "master", "feature-a", "release-1"];
      MainOf(names) == ["main", "staging"] && FeatureOf(names) == ["feature-a", "release-1"]
  {
    var names := ["main", "staging", "master", "feature-a", "release-1"];
    assert names[1..][1..][1..][1..][1..] == [];
  }

  /** A branch with no name is listed under `feature` as the empty name. */
  lemma UnnamedIsFeature(branches: seq<BranchRecord>, i: nat)
    requires i < |branches| && branches[i].name.None?
    ensures "" in Categorized(branches).feature
  {
    FeatureMembers(Names(branches));
    assert Names(branches)[i] == "";
  }

  /** The input order is kept inside the `main` group. */
  lemma {:induction false} MainKeepsOrder(names: seq<string>, i: nat, j: nat)
    requires i < j < |names| && IsMainName(names[i]) && IsMainName(names[j])
    ensures exists a, b :: 0 <= a < b < |MainOf(names)| && MainOf(names)[a] == names[i] && MainOf(names)[b] == names[j]
  {
    var rest := MainOf(names[1..]);
    if i == 0 {
      MainMembers(names[1..]);
      assert names[j] == names[1..][j - 1];
      assert names[j] in names[1..] && names[j] in {"main", "staging", "production"};
      var b :| 0 <= b < |rest| && rest[b] == names[j];
      assert MainOf(names)[0] == names[i] && MainOf(names)[b + 1] == names[j];
    } else {
      MainKeepsOrder(names[1..], i - 1, j - 1);
      var a, b :| 0 <= a < b < |rest| && rest[a] == names[i] && rest[b] == names[j];
      var k := if IsMainName(names[0]) then 1 else 0;
      assert MainOf(names)[a + k] == names[i] && MainOf(names)[b + k] == names[j];
    }
  }

  /** The input order is kept inside the `feature` group. */
  lemma {:induction false} FeatureKeepsOrder(names: seq<string>, i: nat, j: nat)
    requires i < j < |names| && IsFeatureName(names[i]) && IsFeatureName(names[j])
    ensures exists a, b :: 0 <= a < b < |FeatureOf(names)| && FeatureOf(names)[a] == names[i] && FeatureOf(names)[b] == names[j]
  {
    var rest := FeatureOf(names[1..]);
    if i == 0 {
      FeatureMembers(names[1..]);
      assert names[j] == names[1..][j - 1];
      var b :| 0 <= b < |rest| && rest[b] == names[j];
      assert FeatureOf(names)[0] == names[i] && FeatureOf(names)[b + 1] == names[j];
    } else {
      FeatureKeepsOrder(names[1..], i - 1, j - 1);
      var a, b :| 0 <= a < b < |rest| && rest[a] == names[i] && rest[b] == names[j];
      var k := if IsFeatureName(names[0]) then 1 else 0;
      assert FeatureOf(names)[a + k] == names[i] && FeatureOf(names)[b + k] == names[j];
    }
  }

  /** The cache file: its bytes and the time it was last written. */
  datatype CacheEntry = CacheEntry(bytes: string, mtime: int)

  /** `$cacheLifetime`. */
  const CacheLifetime := 60

  /** `isCacheValid`: the file exists and was written strictly less than `lifetime` seconds ago. */
  predicate IsCacheValid(entry: Option<CacheEntry>, now: int, lifetime: int)
  {
    entry.Some? && now - entry.value.mtime < lifetime
  }

  /** An entry written at `t` serves for the next 59 seconds and not at 60 or later. */
  lemma CacheLifetimeIsStrict(bytes: string, t: int, d: int)
    ensures IsCacheValid(Some(CacheEntry(bytes, t)), t + d, CacheLifetime) <==> d < 60
    ensures !IsCacheValid(None, t, CacheLifetime)
  {
  }

  /** The environment the script reads; `getenv` gives `None` for an unset variable. */
  datatype Config = Config(apiUrl: Option<string>, token: Option<string>, frontendProjectId: Option<string>, backendProjectId: Option<string>)

  /** PHP's `empty()` on what `getenv` returns: unset, `""` or `"0"`. */
  predicate PhpEmpty(v: Option<string>)
  {
    v.None? || v.value == "" || v.value == "0"
  }

  /** `getenv('GITLAB_API_URL') ?: 'https://gitlab.com/api/v4'`. */
  function ApiUrl(config: Config): string
  {
    if PhpEmpty(config.apiUrl) then "https://gitlab.com/api/v4" else config.apiUrl.value
  }

  /** The message of the exception the configuration check throws, if any: the token first, then the project ids. */
  function ConfigError(config: Config): (error: Option<string>)
    ensures error.None? <==> !PhpEmpty(config.token) && !PhpEmpty(config.frontendProjectId) && !PhpEmpty(config.backendProjectId)
    ensures PhpEmpty(config.token) ==> error == Some("GITLAB_ACCESS_TOKEN not configured")
  {
    if PhpEmpty(config.token) then Some("GITLAB_ACCESS_TOKEN not configured")
    else if PhpEmpty(config.frontendProjectId) || PhpEmpty(config.backendProjectId) then Some("Project IDs not configured")
    else None
  }

  /** One GitLab call: the URL and the `PRIVATE-TOKEN` header. */
  datatype FetchRequest = FetchRequest(url: string, token: string)

  /** GitLab's answer: the HTTP code and the decoded list, `None` when the body is not a JSON list. */
  datatype UpstreamReply = UpstreamReply(status: int, decoded: Option<seq<BranchRecord>>)

  /** The request `fetchBranches` makes for one project. */
  function BranchesRequest(config: Config, projectId: string): FetchRequest
    requires config.token.Some?
  {
    FetchRequest(ApiUrl(config) + "/projects/" + projectId + "/repository/branches", config.token.value)
  }

  /** `fetchBranches`' result: `[]` unless the reply is a 200 with a decodable list. */
  function Branches(reply: UpstreamReply): (branches: seq<BranchRecord>)
    ensures reply.status != 200 ==> branches == []
    ensures reply.decoded.None? ==> branches == []
    ensures reply.status == 200 && reply.decoded.Some? ==> branches == reply.decoded.value
  {
    if reply.status != 200 then [] else reply.decoded.GetOr([])
  }

  /** The JSON documents the script prints. */
  datatype Payload =
    | Listing(frontend: BranchGroup, backend: BranchGroup, cached: bool, timestamp: string)
    | Failure(frontend: BranchGroup, backend: BranchGroup, error: string)

  /** The group the fallback lists for each project. */
  const MainOnly := BranchGroup(["main"], [])

  /** The HTTP response: its status code and body. */
  datatype Response = Response(status: int, body: string)

  /** What one request does: its response, the GitLab calls it made, and the cache file it leaves. */
  datatype Outcome = Outcome(response: Response, requests: seq<FetchRequest>, cache: Option<CacheEntry>)

  /**
   * One request to the script: configuration first, then the cache, then
   * both GitLab fetches and a cache write of the very bytes returned. `now`
   * is `time()` when the cache is checked; `written` is the clock when
   * `file_put_contents` runs after both fetches, which becomes the file's
   * `filemtime`.
   */
  function Serve(config: Config, cache: Option<CacheEntry>, now: int, written: int, timestamp: string,
                 upstream: FetchRequest -> UpstreamReply, encode: Payload -> string): (o: Outcome)
    ensures o.response.status == 200
    ensures o.requests == [] ==> o.cache == cache
    ensures o.requests != [] ==> |o.requests| == 2 && o.cache == Some(CacheEntry(o.response.body, written))
  {
    match ConfigError(config)
    case Some(message) => Outcome(Response(200, encode(Failure(MainOnly, MainOnly, message))), [], cache)
    case None =>
      if IsCacheValid(cache, now, CacheLifetime) then Outcome(Response(200, cache.value.bytes), [], cache)
      else
        var requests := [BranchesRequest(config, config.frontendProjectId.value), BranchesRequest(config, config.backendProjectId.value)];
        var body := encode(Listing(Categorized(Branches(upstream(requests[0]))), Categorized(Branches(upstream(requests[1]))), false, timestamp));
        Outcome(Response(200, body), requests, Some(CacheEntry(body, written)))
  }

  /** A missing token or project id gives the fallback, whatever the cache holds, with no fetch and no cache write. */
  lemma ConfigCheckedBeforeCache(config: Config, cache: Option<CacheEntry>, now: int, written: int, timestamp: string,
                                 upstream: FetchRequest -> UpstreamReply, encode: Payload -> string)
    requires PhpEmpty(config.token) || PhpEmpty(config.frontendProjectId) || PhpEmpty(config.backendProjectId)
    ensures var o := Serve(config, cache, now, written, timestamp, upstream, encode);
      && o.response.status == 200 && o.requests == [] && o.cache == cache
      && o.response.body == encode(Failure(BranchGroup(["main"], []), BranchGroup(["main"], []),
           if PhpEmpty(config.token) then "GITLAB_ACCESS_TOKEN not configured" else "Project IDs not configured"))
  {
  }

  /** A fresh cache is served byte for byte, with no fetch and no rewrite. */
  lemma CacheHitServesStoredBytes(config: Config, cache: Option<CacheEntry>, now: int, written: int, timestamp: string,
                                  upstream: FetchRequest -> UpstreamReply, encode: Payload -> string)
    requires ConfigError(config).None? && IsCacheValid(cache, now, CacheLifetime)
    ensures var o := Serve(config, cache, now, written, timestamp, upstream, encode);
      o.response == Response(200, cache.value.bytes) && o.requests == [] && o.cache == cache
  {
  }

  /**
   * On a miss both projects are fetched in order, a failed fetch empties
   * only that project's groups, the listing says `cached: false`, and the
   * cache then holds exactly the bytes returned, stamped with the time of
   * the write rather than the time of the request.
   */
  lemma CacheMissFetchesAndStores(config: Config, cache: Option<CacheEntry>, now: int, written: int, timestamp: string,
                                  upstream: FetchRequest -> UpstreamReply, encode: Payload -> string)
    requires ConfigError(config).None? && !IsCacheValid(cache, now, CacheLifetime)
    ensures var o := Serve(config, cache, now, written, timestamp, upstream, encode);
      var f := upstream(BranchesRequest(config, config.frontendProjectId.value));
      var b := upstream(BranchesRequest(config, config.backendProjectId.value));
      && o.requests == [BranchesRequest(config, config.frontendProjectId.value), BranchesRequest(config, config.backendProjectId.value)]
      && o.cache == Some(CacheEntry(o.response.body, written))
      && o.response.status == 200
      && o.response.body == encode(Listing(Categorized(Branches(f)), Categorized(Branches(b)), false, timestamp))
      && (f.status != 200 || f.decoded.None? ==>
            o.response.body == encode(Listing(BranchGroup([], []), Categorized(Branches(b)), false, timestamp)))
      && (b.status != 200 || b.decoded.None? ==>
            o.response.body == encode(Listing(Categorized(Branches(f)), BranchGroup([], []), false, timestamp)))
  {
  }

  /**
   * Within the lifetime of a cache write, a later request gets the same bytes
   * back and fetches nothing, whatever GitLab would now answer. The lifetime
   * counts from the write `w1`, so a request more than 60 seconds after the
   * first request's start is still served from the cache when the fetches
   * were slow.
   */
  lemma RepeatWithinLifetime(config: Config, cache: Option<CacheEntry>, t1: int, w1: int, t2: int, w2: int,
                             ts1: string, ts2: string,
                             upstream1: FetchRequest -> UpstreamReply, upstream2: FetchRequest -> UpstreamReply,
                             encode: Payload -> string)
    requires ConfigError(config).None? && !IsCacheValid(cache, t1, CacheLifetime)
    requires t2 - w1 < CacheLifetime
    ensures var first := Serve(config, cache, t1, w1, ts1, upstream1, encode);
      var second := Serve(config, first.cache, t2, w2, ts2, upstream2, encode);
      second.response == first.response && second.requests == [] && second.cache == first.cache
  {
  }

  /** Once 60 seconds have passed since the write, the next request fetches both projects again and rewrites the cache. */
  lemma RefetchAfterLifetime(config: Config, cache: Option<CacheEntry>, t1: int, w1: int, t2: int, w2: int,
                             ts1: string, ts2: string,
                             upstream1: FetchRequest -> UpstreamReply, upstream2: FetchRequest -> UpstreamReply,
                             encode: Payload -> string)
    requires ConfigError(config).None? && !IsCacheValid(cache, t1, CacheLifetime)
    requires t2 - w1 >= CacheLifetime
    ensures var first := Serve(config, cache, t1, w1, ts1, upstream1, encode);
      var second := Serve(config, first.cache, t2, w2, ts2, upstream2, encode);
      && second.requests == first.requests
      && second.cache == Some(CacheEntry(second.response.body, w2))
  {
  }

  /** `/tmp/env_cache.json`. */
  class CacheFile {
    var entry: Option<CacheEntry>

    constructor (entry: Option<CacheEntry>)
      ensures this.entry == entry
    {
      this.entry := entry;
    }
  }

  /** The script's main block, against a cache file it may rewrite. */
  method ServeEnvironments(cacheFile: CacheFile, config: Config, now: int, written: int, timestamp: string,
                           upstream: FetchRequest -> UpstreamReply, encode: Payload -> string)
    returns (response: Response, requests: seq<FetchRequest>)
    modifies cacheFile
    ensures Outcome(response, requests, cacheFile.entry) == Serve(config, old(cacheFile.entry), now, written, timestamp, upstream, encode)
  {
    requests := [];
    if PhpEmpty(config.token) {
      response := Response(200, encode(Failure(MainOnly, MainOnly, "GITLAB_ACCESS_TOKEN not configured")));
      return;
    }
    if PhpEmpty(config.frontendProjectId) || PhpEmpty(config.backendProjectId) {
      response := Response(200, encode(Failure(MainOnly, MainOnly, "Project IDs not configured")));
      return;
    }
    if IsCacheValid(cacheFile.entry, now, CacheLifetime) {
      response := Response(200, cacheFile.entry.value.bytes);
      return;
    }
    var frontendRequest := BranchesRequest(config, config.frontendProjectId.value);
    requests := requests + [frontendRequest];
    var frontendBranches := Branches(upstream(frontendRequest));
    var backendRequest := BranchesRequest(config, config.backendProjectId.value);
    requests := requests + [backendRequest];
    var backendBranches := Branches(upstream(backendRequest));
    var frontend := CategorizeBranches(frontendBranches);
    var backend := CategorizeBranches(backendBranches);
    var jsonResponse := encode(Listing(frontend, backend, false, timestamp));
    cacheFile.entry := Some(CacheEntry(jsonResponse, written));
    response := Response(200, jsonResponse);
  }
}
