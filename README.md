# review-app-devbar in Dafny

A model of the environment switcher of review-app-devbar, with proofs. The
switcher is a small bar on every review deployment. It lets whoever opens it pick
the frontend branch and the backend branch they talk to. The frontend
branch is the first label of the page's host (`feature-x.discovery.wang`).
The backend branch is kept in the cookie `x_target_backend`, which the API
client turns into `feature-x.api.discovery.wang`.

What is modelled, module by module:

- `Text`: the string operations the source relies on. These are
  `split`/`join` on one character, ASCII `toLowerCase`, `split` on a
  string, and "text before the first `;`".
- `Subdomain`: `branchToSubdomain`, the five-step slug normaliser.
- `Hosts`: the local-host test (`localhost` or a dotted quad) and
  `getBranchFromUrl`.
- `UrlHost`: the `hostname` setter of a `URL` object, which
  `handleBranchSwitch` uses. An input that ends in a number must parse as
  an IPv4 address and is then written in dotted decimal. An input that does
  not parse leaves the URL unchanged.
- `CookieHeader`: the cookie jar as the page sees it.
  - The jar is a sequence of cookies in creation order, keyed by name and
    scope. A scope is host-only or a literal domain attribute.
  - `document.cookie` serialises the jar.
  - `getCookie` parses that string literally.
- `CookieJar`: one `document.cookie = ...` assignment is `Assign`.
  - The class `Jar` holds the page's host and the jar.
  - Its methods are `clearAllCookieScopes`, `setCookie`, `deleteCookie` and
    `getCookie`.
- `DevBar`: two parts of the DevBar component.
  - The load-time reconciliation of the URL branch with the frontend cookie.
  - `handleBranchSwitch`, which returns the navigation it would perform.
- `ApiClient`: `getBackendBaseUrl`, `getCurrentBackendBranch`, the
  `RequestInit` merging of `apiRequest`, and the `api` verb helpers.
- `Environments`: the branch listing endpoint.
  - `categorizeBranches` is a loop over the listing.
  - `isCacheValid` is the 60-second check.
  - The request flow is modelled twice: as the function `Serve`, and as the
    method `ServeEnvironments` over a cache file object.
- `PhpCast`: PHP's `(int)` on the JSON scalar sent as `user_id`.
- `Users`: the demo user API. It covers the branch taken from the Host
  header and the default lists. It also covers `loadUsers` falling back to
  the defaults, the status toggle and the method dispatch. The pure
  function `Post` has the method `HandlePost` and `Respond` the method
  `Dispatch` (which covers `Get`) on the class `UserStore`, which works
  over the per-branch data files; `LoadUsers` is the method for a load.

Clocks, the GitLab fetch, JSON encoding and the request body are
parameters. The cookie jar, the cache file and the user data files are
objects whose methods update them in place.

Two behaviours of the cache in environments.php are worth stating plainly:

- A fresh cache file is served byte for byte, whatever it holds.
  `CacheHitServesStoredBytes` states exactly that.
- Repeat requests are served from the cache for 60 seconds from the cache
  write, not from the previous request. The write happens after both
  GitLab fetches, so slow fetches stretch the window past 60 seconds from
  the request's start. `RepeatWithinLifetime` and `RefetchAfterLifetime`
  are stated from the write.

## Model

| member | source | states |
|---|---|---|
| Subdomain.BranchToSubdomain | src/components/DevBar/utils.ts:120-127 | the result uses only `a-z`, `0-9` and `-`, neither starts nor ends with `-`, and never holds `--` |
| Subdomain.ReplaceSlashes | src/components/DevBar/utils.ts:123 | step 2 keeps the length; with `Lower` it gives the documented intermediate value (`FeatureExampleRewrite`), and `NormalisesTo` and `Idempotent` state the whole pipeline it is part of |
| Subdomain.TrimDashes | src/components/DevBar/utils.ts:126 | step 5; on collapsed input it yields a slug (`TrimSlug`), and a slug has no dash to trim |
| Subdomain.ReplaceInvalid | src/components/DevBar/utils.ts:124 | keeps the length and leaves only slug characters |
| Subdomain.CollapseDashes | src/components/DevBar/utils.ts:125 | no `--` is left, the first and last characters are kept, nothing new appears, and a string without `--` is unchanged |
| Subdomain.TrimSlug | src/components/DevBar/utils.ts:126 | trimming one dash at each end of collapsed slug characters gives a slug |
| Subdomain.SlugIsFixedPoint | src/components/DevBar/utils.ts:120-127 | a slug normalises to itself |
| Subdomain.Idempotent | src/components/DevBar/utils.ts:120-127 | normalising twice is normalising once |
| Subdomain.NormalisesTo | src/components/DevBar/utils.ts:121-123 | when lower-casing and replacing `/` already gives a slug, that slug is the result |
| Subdomain.FeatureExampleRewrite | src/components/DevBar/utils.ts:122-123 | `feature/DEV-001-say-hello-world` becomes `feature-dev-001-say-hello-world` after the first two steps |
| Subdomain.FeatureExample | src/components/DevBar/utils.ts:116 | `feature/DEV-001-say-hello-world` gives `feature-dev-001-say-hello-world` |
| Subdomain.DashedExample | src/components/DevBar/utils.ts:117 | `add-new-line` gives itself |
| Subdomain.MainExample | src/components/DevBar/utils.ts:118 | `main` gives itself |
| Hosts.GetBranchFromUrl | src/components/DevBar/utils.ts:137-155 | a branch exactly when the host is not local and has at least three labels; it is the host's prefix up to the first dot |
| Hosts.IsLocal | src/components/DevBar/utils.ts:141 | the `localhost` or dotted-quad test; `GetBranchFromUrl` gives no branch exactly on such hosts or hosts with fewer than three labels, and `LocalHostsHaveNoBranch` covers every four-part digit-run host |
| Hosts.FirstLabel | src/components/DevBar/apiClient.ts:28 | the first label has no dot, is a prefix of the host, and is followed by a dot or the end |
| Hosts.FirstLabelBefore | src/components/DevBar/apiClient.ts:28 | a dot-free label followed by a dot is the first label, whatever follows |
| Hosts.FirstLabelWhole | src/components/DevBar/apiClient.ts:28 | a host without a dot (such as `localhost`) is its own first label |
| Hosts.LocalHostsHaveNoBranch | src/components/DevBar/utils.ts:140-143 | `localhost` and every dotted quad of digit runs, such as `127.0.0.1`, have no branch |
| Hosts.ApexHasNoBranch | src/components/DevBar/utils.ts:148-154 | the two-label `discovery.wang` has no branch |
| Hosts.BranchOfJoinedHost | src/components/DevBar/utils.ts:145-152 | a non-local host of three or more dot-free labels yields its first label |
| Hosts.ReviewHostExample | src/components/DevBar/utils.ts:134 | `main.discovery.wang` yields `main` |
| Hosts.ApiHostExample | src/components/DevBar/utils.ts:148-151 | `feature-x.api.discovery.wang` yields `feature-x` |
| CookieHeader.SplitEntries | src/components/DevBar/utils.ts:39-40 | splitting the serialised jar on `; name=` gives one part more than there are cookies of that name, and with one such cookie the text up to the next `;` is its value |
| CookieHeader.ParseAgreesWithLookup | src/components/DevBar/utils.ts:38-45 | on a well-formed jar, `getCookie` gives a value exactly when one cookie has that name and its value is non-empty, and then gives that value |
| CookieHeader.ParseCookie | src/components/DevBar/utils.ts:38-45 | `getCookie` on the serialised jar, split on `"; " + name + "="`; `ParseAgreesWithLookup` proves it equal to `Lookup` on every well-formed jar |
| CookieHeader.Lookup | src/components/DevBar/utils.ts:38-45 | the independent reading of `getCookie`: a value exactly when one cookie has the name and its value is non-empty; `ParseAgreesWithLookup` ties it to `ParseCookie` |
| CookieJar.ExpireIsDrop | src/components/DevBar/utils.ts:14 | an assignment with `max-age=0` removes exactly the cookie of that name and scope |
| CookieJar.Assign | src/components/DevBar/utils.ts:14 | one `document.cookie =` statement: every cookie it keeps was in the jar or is the new one, cookies at other names or scopes stay, and a positive `max-age` stores the new cookie; `ExpireIsDrop`, `AssignAbsentAppends` and `AssignUnique` add the rest |
| CookieJar.AfterClear | src/components/DevBar/utils.ts:9-36 | the jar after `clearAllCookieScopes`; `Jar.ClearAllScopes` computes it in place and `WriteScopeIsCleared` and `ClearsParentsButNotLastLabel` state which scopes it covers |
| CookieJar.AfterSet | src/components/DevBar/utils.ts:47-68 | the jar after `setCookie`; `SetReplacesClearedCookies`, `SetThenGet` and `SetKeepsOtherNames` state its effect and `Jar.Set` computes it in place |
| CookieJar.AfterDelete | src/components/DevBar/utils.ts:70-84 | the jar after `deleteCookie`; `DeleteClearsOneScope` states its effect and `Jar.Delete` computes it in place |
| CookieJar.AssignAbsentAppends | src/components/DevBar/utils.ts:67 | a live assignment to a new name and scope adds the cookie last |
| CookieJar.AssignUnique | src/components/DevBar/utils.ts:56 | an assignment never creates a second cookie with the same name and scope |
| CookieJar.AssignKeepsOtherNames | src/components/DevBar/utils.ts:56 | an assignment leaves the cookies of every other name as they were |
| CookieJar.WriteScopeIsCleared | src/components/DevBar/utils.ts:47-68 | the scope `setCookie` writes at is one of the scopes it clears first |
| CookieJar.ClearsParentsButNotLastLabel | src/components/DevBar/utils.ts:30-35 | on a named host every `"." + parts[i..]` with `i < len-1` is cleared but `"." + last label` is not |
| CookieJar.SetReplacesClearedCookies | src/components/DevBar/utils.ts:47-68 | after `setCookie` the jar is the cleared jar plus the new cookie, appended at the apex or host-only scope |
| CookieJar.SetLeavesSingleCookie | src/components/DevBar/utils.ts:47-68 | when every cookie of that name sat at a cleared scope, the new cookie is the only one of that name |
| CookieJar.SetThenGet | src/components/DevBar/utils.ts:38-68 | `getCookie(k)` after `setCookie(k, v)` gives `v` when `v` is non-empty and has no `;` |
| CookieJar.SetThenLookup | src/components/DevBar/utils.ts:38-68 | the same round trip stated on the jar |
| CookieJar.SetKeepsOtherNames | src/components/DevBar/utils.ts:9-68 | `setCookie(k, ...)` changes neither the cookies nor the `getCookie` result of any other name |
| CookieJar.DeleteClearsOneScope | src/components/DevBar/utils.ts:70-84 | `deleteCookie` removes the name at its one write scope only, so copies at other scopes survive |
| CookieJar.Jar.Get | src/components/DevBar/utils.ts:38-45 | `getCookie` is the lookup of the jar, and a value it returns is non-empty and free of `;` |
| CookieJar.Jar.Write | src/components/DevBar/utils.ts:56 | one `document.cookie` assignment; the jar stays well-formed |
| CookieJar.Jar.ClearAllScopes | src/components/DevBar/utils.ts:9-36 | removes the name at host-only, and on a named host also at the host, the apex and every parent suffix, and nowhere else |
| CookieJar.Jar.ClearParentDomains | src/components/DevBar/utils.ts:32-35 | the loop removes the name at every parent suffix, one at a time |
| CookieJar.Jar.Set | src/components/DevBar/utils.ts:47-68 | clears every scope, then writes the value cut at its first `;` at the apex, host-only on local hosts |
| CookieJar.Jar.Delete | src/components/DevBar/utils.ts:70-84 | expires the name at the apex, or at host-only on local hosts |
| DevBar.KeysAreValid | src/components/DevBar/utils.ts:89-92 | both cookie keys are valid names and differ |
| DevBar.Reconcile | src/components/DevBar/Index.tsx:32-52 | when the cookie is written, the branch shown is the value written |
| DevBar.ReconcileTable | src/components/DevBar/Index.tsx:33-52 | a write happens exactly when there is a URL branch and no cookie or a cookie that differs ignoring case; a write shows and writes the lower-cased URL branch itself; without a write the cookie's value is shown; without a URL branch it is the cookie or `main` |
| DevBar.CaseOnlyDifferenceKeepsCookie | src/components/DevBar/Index.tsx:45-48 | URL branch `Main` with cookie `main` shows `main` and writes nothing |
| DevBar.BackendChoice | src/components/DevBar/Index.tsx:28 | the backend branch is the cookie when present, never empty, `main` otherwise |
| DevBar.LoadSelections | src/components/DevBar/Index.tsx:22-55 | the branches shown follow the decision table, and the jar changes only by the frontend `setCookie` of the lower-cased URL branch |
| DevBar.AfterLoad | src/components/DevBar/Index.tsx:33-52 | the jar after the mount: unchanged unless `Reconcile` writes, and then `setCookie` of the lower-cased URL branch; `LoadKeepsBackend` and `LoadSettles` state its effect |
| DevBar.LoadKeepsBackend | src/components/DevBar/Index.tsx:28 | the load never changes the backend cookie |
| DevBar.LoadSettles | src/components/DevBar/Index.tsx:30-48 | after one load the frontend cookie names the branch shown, so a second load writes nothing and shows the same branch |
| DevBar.SwitchBranch | src/components/DevBar/Index.tsx:63-95 | the raw name is written to that axis's cookie; a frontend switch navigates to whatever host the `hostname` setter makes of the page's host with label 0 replaced by the slug; a backend switch reloads |
| UrlHost.SetHostname | src/components/DevBar/Index.tsx:84 | the host after `currentUrl.hostname = newHostname`: an empty input changes nothing; an input that does not end in a number is taken as given; one that does is either rejected, leaving the old host, or becomes a dotted quad |
| UrlHost.HostParts | src/components/DevBar/Index.tsx:84 | the labels the IPv4 parser sees: the dot-split labels, less one trailing empty label |
| UrlHost.ParseIPv4Number | src/components/DevBar/Index.tsx:84 | a non-empty label that does not start with `0` and holds a non-digit is not an IPv4 number |
| UrlHost.ParseIPv4 | src/components/DevBar/Index.tsx:84 | a host with any label that is not an IPv4 number is not an IPv4 address |
| UrlHost.SerializeIPv4 | src/components/DevBar/Index.tsx:84 | an address is written as four digit runs joined by dots, so the result is a local host for `getBranchFromUrl` |
| UrlHost.EndsInNumberIgnoresFirstLabel | src/components/DevBar/Index.tsx:77-84 | replacing the first of three or more labels does not change whether the host ends in a number |
| DevBar.SwitchedHostEndsInNumber | src/components/DevBar/Index.tsx:77-84 | the switched host ends in a number exactly when the page's host does |
| DevBar.DomainIsNotLocal | src/components/DevBar/utils.ts:140-143 | a host of two or more labels that does not end in a number is neither `localhost` nor a dotted quad |
| DevBar.SwitchOnDottedQuadStaysLocal | src/components/DevBar/Index.tsx:72-87 | on a dotted-quad page host, a frontend switch lands on a dotted-quad host |
| DevBar.SwitchOnDottedQuadStays | src/components/DevBar/Index.tsx:72-87 | on a dotted-quad page host, a slug that is not an IPv4 number makes the setter reject the new host, so the page reloads on its own host |
| DevBar.SwitchOnDottedQuadThenLoad | src/components/DevBar/Index.tsx:33-87 | after such a switch, the load finds no URL branch, shows the raw name from the cookie and writes nothing |
| DevBar.MainSwitchOnDottedQuadStays | src/components/DevBar/Index.tsx:72-87 | switching to `main` on any dotted-quad host, such as `192.168.1.5`, stays on that host |
| DevBar.SwitchedHost | src/components/DevBar/Index.tsx:72-84 | the host a frontend switch navigates to; `SwitchedHostLabels` and `SwitchedHostBranch` state that only its first label changes, to the slug |
| DevBar.SwitchedHostLabels | src/components/DevBar/Index.tsx:72-81 | the new host has the same number of labels and differs only in label 0, which is the slug |
| DevBar.SwitchKeepsOtherAxis | src/components/DevBar/Index.tsx:64-67 | a switch leaves the other axis's cookies as they were |
| DevBar.SwitchedHostBranch | src/components/DevBar/Index.tsx:77-84 | the new host's URL branch is the slug |
| DevBar.SwitchThenLoad | src/components/DevBar/Index.tsx:33-87 | on a page host of three or more labels that does not end in a number, the setter accepts the switched host; loading it keeps the raw name when its lower-case form is its slug, and otherwise rewrites the cookie to the slug |
| ApiClient.ApiHostLabels | src/components/DevBar/apiClient.ts:22 | a backend host's labels are the branch label, `api`, `discovery`, `wang` |
| ApiClient.BackendBaseUrl | src/components/DevBar/apiClient.ts:12-31 | `getBackendBaseUrl`; `BaseUrlShape` states the protocol, `//` and the labels slug-or-first-label, `api`, `discovery`, `wang` |
| ApiClient.CurrentBackendBranch | src/components/DevBar/apiClient.ts:94-104 | the raw cookie when truthy, otherwise a dot-free prefix of the host (its first label); `DefaultBackendFollowsFrontend` ties it to the URL branch |
| ApiClient.BaseUrlShape | src/components/DevBar/apiClient.ts:12-31 | the base URL is the protocol, `//`, and a host labelled with the slug of the cookie, or else the raw first label, under `api.discovery.wang` whatever the page's domain |
| ApiClient.DefaultBackendFollowsFrontend | src/components/DevBar/apiClient.ts:94-104 | without a cookie the backend is the URL's frontend branch, and on `localhost` it is `localhost` |
| ApiClient.Override | src/components/DevBar/apiClient.ts:56 | a spread property present in the later object wins, even when it holds `undefined` |
| ApiClient.Spread | src/components/DevBar/apiClient.ts:56 | the spread keeps every key of both objects and the later object's values |
| ApiClient.MergedHeaders | src/components/DevBar/apiClient.ts:49-54 | the merged headers hold every caller header and a `Content-Type` that is JSON unless the caller named one |
| ApiClient.ApiRequestAsWritten | src/components/DevBar/apiClient.ts:41-57 | the request URL is the base URL followed by the endpoint |
| ApiClient.AsWrittenKeepsContentTypeOnlyWithoutHeaders | src/components/DevBar/apiClient.ts:49-56 | as written, `Content-Type` is sent exactly when the caller passes no `headers` or names it itself |
| ApiClient.AsWrittenDropsContentType | src/components/DevBar/apiClient.ts:49-56 | a call with only an `Authorization` header sends no `Content-Type` |
| ApiClient.ApiRequest | src/components/DevBar/apiClient.ts:41-57 | the corrected request sends every caller header plus a JSON `Content-Type` unless the caller named one, and keeps the caller's method, body and other options |
| ApiClient.CorrectionOnlyTouchesHeaders | src/components/DevBar/apiClient.ts:56 | the corrected and the written request differ only in headers, and are equal when the caller passes none |
| ApiClient.WithMethod | src/components/DevBar/apiClient.ts:64 | the verb overrides the caller's method and nothing else changes |
| ApiClient.WithMethodAndBody | src/components/DevBar/apiClient.ts:67-71 | the verb is forced, and the body is the JSON of `data` exactly when `data` is truthy, otherwise `undefined` |
| ApiClient.Get | src/components/DevBar/apiClient.ts:63-64 | `api.get` over `apiRequest` as written; `VerbHelpers` and `HelpersKeepContentTypeOnlyWithoutHeaders` state its verb, body and headers |
| ApiClient.Post | src/components/DevBar/apiClient.ts:66-71 | `api.post` over `apiRequest` as written; `VerbHelpers`, `FalsyDataDropsCallerBody` and `HelpersKeepContentTypeOnlyWithoutHeaders` state its verb, body and headers |
| ApiClient.Put | src/components/DevBar/apiClient.ts:73-78 | `api.put` over `apiRequest` as written; `VerbHelpers` states its verb and `HelpersKeepContentTypeOnlyWithoutHeaders` its agreement with the corrected request |
| ApiClient.Delete | src/components/DevBar/apiClient.ts:80-81 | `api.delete` over `apiRequest` as written; `VerbHelpers` states its verb and `HelpersKeepContentTypeOnlyWithoutHeaders` its agreement with the corrected request |
| ApiClient.Patch | src/components/DevBar/apiClient.ts:83-88 | `api.patch` over `apiRequest` as written; `VerbHelpers` states its verb and `HelpersKeepContentTypeOnlyWithoutHeaders` its agreement with the corrected request |
| ApiClient.VerbHelpers | src/components/DevBar/apiClient.ts:62-89 | each helper sends its own verb whatever `options.method` says, and `post` sends the JSON of `data` only when it is truthy |
| ApiClient.HelpersKeepContentTypeOnlyWithoutHeaders | src/components/DevBar/apiClient.ts:49-89 | `api.get` and `api.post` send `Content-Type` exactly when the caller passes no headers or names it; without caller headers every helper sends what the corrected request would |
| ApiClient.FalsyDataDropsCallerBody | src/components/DevBar/apiClient.ts:66-71 | a falsy `data` replaces a body the caller put in `options` with `undefined` |
| Environments.CategorizeBranches | public/dev-ops/environments.php:63-87 | the loop's groups are the input's main names and feature names, in input order |
| Environments.Categorized | public/dev-ops/environments.php:63-87 | what `categorizeBranches` returns; `CategorizeBranches` is proved to compute it, and `CategorizedIsPartition`, `MainMembers`, `FeatureMembers` and the order lemmas state its contents |
| Environments.CategorizedIsPartition | public/dev-ops/environments.php:71-84 | each name occurs in the two groups together as often as in the input, except `master`, which never occurs, and the group sizes add up to the input size minus its `master` entries |
| Environments.MainMembers | public/dev-ops/environments.php:79-80 | `main` holds exactly the input's `main`, `staging` and `production` entries |
| Environments.FeatureMembers | public/dev-ops/environments.php:81-83 | `feature` holds exactly the input's names outside the main set |
| Environments.GroupSizes | public/dev-ops/environments.php:63-87 | no group lists `master`, and the sizes add up to the input size minus its `master` entries |
| Environments.UnnamedIsFeature | public/dev-ops/environments.php:72 | a record without a name is listed under `feature` as the empty name |
| Environments.MainKeepsOrder | public/dev-ops/environments.php:71-84 | two `main` entries keep their relative order |
| Environments.FeatureKeepsOrder | public/dev-ops/environments.php:71-84 | two feature entries keep their relative order |
| Environments.CategorizeExample | public/dev-ops/environments.php:63-87 | `main, staging, master, feature-a, release-1` gives `main, staging` and `feature-a, release-1` |
| Environments.CacheLifetimeIsStrict | public/dev-ops/environments.php:24-31 | a missing file is never valid, and a file written at `t` is valid at `t + d` exactly when `d < 60` |
| Environments.IsCacheValid | public/dev-ops/environments.php:24-31 | `isCacheValid`; `CacheLifetimeIsStrict` states that a missing file is never valid and a file is valid for fewer than 60 seconds after its write |
| Environments.ConfigError | public/dev-ops/environments.php:94-100 | no error exactly when the token and both project ids are non-empty, and a missing token is reported first |
| Environments.Branches | public/dev-ops/environments.php:52-57 | a non-200 reply or an undecodable body gives `[]`, and a 200 reply gives the decoded list |
| Environments.BranchesRequest | public/dev-ops/environments.php:36-46 | the URL and token of one `fetchBranches` call; `CacheMissFetchesAndStores` states that a miss makes exactly the frontend and the backend request, in that order |
| Environments.ConfigCheckedBeforeCache | public/dev-ops/environments.php:94-140 | a missing token or project id gives the fallback with status 200, whatever the cache holds, with no fetch and no cache write |
| Environments.Serve | public/dev-ops/environments.php:92-141 | one request: the status is always 200, the cache is left alone unless both projects were fetched, and then it holds exactly the response bytes stamped with the write time |
| Environments.CacheHitServesStoredBytes | public/dev-ops/environments.php:103-107 | a fresh cache is returned byte for byte, with no fetch and no rewrite |
| Environments.CacheMissFetchesAndStores | public/dev-ops/environments.php:110-125 | on a miss both projects are fetched in order, and a non-200 or undecodable reply, from either project, empties only that project's groups; the listing says `cached: false`, and the cache then holds the bytes returned, stamped with the time of the write after the fetches |
| Environments.RepeatWithinLifetime | public/dev-ops/environments.php:103-123 | a request less than 60 seconds after the cache write, however long after the first request's start, gets the same bytes back and fetches nothing |
| Environments.RefetchAfterLifetime | public/dev-ops/environments.php:103-123 | a request 60 seconds or more after the cache write fetches both projects again and stamps the cache with its own write time |
| Environments.ServeEnvironments | public/dev-ops/environments.php:92-141 | the script's response, fetches and cache file are those of `Serve` |
| PhpCast.IntCastOfDecimal | public/api/users.php:188 | `(int)` reads back a natural number from its decimal string after any leading whitespace |
| PhpCast.IntCast | public/api/users.php:188 | `(int)` on the JSON scalar; `IntCastOfDecimal`, `IntCastOfNegative` and `CastStopsAtNonDigit` state what it reads from strings |
| PhpCast.IntCastOfNegative | public/api/users.php:188 | `(int)` reads back a negative number from its decimal string |
| PhpCast.CastStopsAtNonDigit | public/api/users.php:188 | text after the digits is ignored |
| Users.CurrentBranch | public/api/users.php:16-21 | the branch has no dot, and is `develop` without a Host header |
| Users.CurrentBranchIsFirstLabel | public/api/users.php:16-21 | the branch is the first label of the Host header, or of `develop.api.discovery.wang` without one |
| Users.DefaultUsersShape | public/api/users.php:27-76 | every default list numbers its users 1, 2, ... with statuses `Active`/`Inactive`, and an unknown branch gets the six generic users naming it |
| Users.DefaultUsers | public/api/users.php:27-76 | the per-branch seed lists; `DefaultUsersShape` and `DefaultSizes` state their numbering, statuses and sizes |
| Users.DefaultSizes | public/api/users.php:32-75 | the three known branches have 5, 7 and 9 users, and a generic user's email names the branch |
| Users.LoadIsStable | public/api/users.php:96-136 | after a load the branch file holds the list returned, no other file changes, and a second load returns the same list and saves nothing |
| Users.LoadedUsers | public/api/users.php:96-136 | the list `loadUsers` returns; `LoadIsStable` and `EmptyListIsKept` state it together with `FilesAfterLoad` |
| Users.FilesAfterLoad | public/api/users.php:96-136 | the files after `loadUsers`; `LoadIsStable` states that only the branch file changes and that it then holds the list returned |
| Users.EmptyListIsKept | public/api/users.php:124-135 | a stored empty list is returned as it is |
| Users.FindUser | public/api/users.php:197-204 | the first position with that id, or none exactly when no user has it |
| Users.Toggled | public/api/users.php:200 | `Active` becomes `Inactive` and everything else `Active` |
| Users.ToggleStatus | public/api/users.php:196-204 | a new list exactly when some user has that id |
| Users.ToggleChangesOnlyFirstMatch | public/api/users.php:196-204 | only the first user with that id changes, only in its status, and the length is kept |
| Users.ToggleTwice | public/api/users.php:200 | toggling twice restores a user that was `Active` or `Inactive` |
| Users.ToggleFirst | public/api/users.php:196-204 | the loop finds a user exactly when one has that id, and returns the list with the first one toggled |
| Users.PostValidation | public/api/users.php:170-186 | a wrong action gives 400 `Invalid action` before `user_id` is checked; a missing `user_id` gives 400; neither touches a file |
| Users.Post | public/api/users.php:166-223 | the status is 400, 404 or 200, and a 400 leaves every file as it was; `PostToggle` and `PostSavesToggle` state the 404 and 200 outcomes |
| Users.PostToggle | public/api/users.php:188-215 | an unknown id gives 404 and saves no toggle, and a known id gives 200 and the next load finds the toggled list |
| Users.PostSavesToggle | public/api/users.php:198-215 | a successful POST saves the toggled list where the next load finds it |
| Users.PostTwiceRestores | public/api/users.php:196-215 | two POSTs for the same user restore the stored list when its status was `Active` or `Inactive` |
| Users.Get | public/api/users.php:148-161 | status 200 with `count` equal to the number of users |
| Users.Respond | public/api/users.php:228-246 | GET returns the loaded list with its count, and other methods get 405 without touching a file |
| Users.UserStore.LoadUsers | public/api/users.php:96-136 | returns the stored list, or saves and returns the defaults when the file is missing, blank or malformed |
| Users.UserStore.HandlePost | public/api/users.php:166-223 | the response and files are those of `Post` |
| Users.UserStore.Dispatch | public/api/users.php:228-246 | the response and files are those of `Respond` |

## Findings

| source | as written | input that shows it | evidently intended | confidence | as-written member | corrected member |
|---|---|---|---|---|---|---|
| src/components/DevBar/apiClient.ts:49-56 | `{ ...defaultOptions, ...options }` spreads the caller's own `headers` last, replacing the merged headers that carry the JSON `Content-Type` | for `api.post('/users', data, { headers: { Authorization: 'Bearer t' } })` the headers handed to `fetch` carry no JSON `Content-Type` | the caller's headers are added to the JSON `Content-Type`, as the merge in lines 50-53 sets out to do | high; not executed | ApiClient.ApiRequestAsWritten (ApiClient.AsWrittenDropsContentType) | ApiClient.ApiRequest |

The verb helpers `Get`, `Post`, `Put`, `Delete` and `Patch` call
`ApiRequestAsWritten`, as the source's helpers call `apiRequest`; so they
drop `Content-Type` too, and `HelpersKeepContentTypeOnlyWithoutHeaders`
shows that without caller headers they send what `ApiRequest` would.

## Left out

- Lower-casing is ASCII only. `toLowerCase` also maps non-ASCII letters, such as the Kelvin sign to `k`, and that is not modelled.
- Browser cookie rules are not modelled: domain matching against the page's host, public-suffix rules, the leading-dot normalisation of domain attributes, paths, expiry over time, whitespace trimming and name validation. The jar is keyed literally by name and scope, so `Domain("a.b")` and `Domain(".a.b")` are different scopes.
- CookieJar.SetThenGet: the round trip needs every earlier cookie of that name to sit at a scope `setCookie` clears. A cookie at an uncleared scope, such as `"." + last label`, survives and makes `getCookie` return null.
- DevBar.LoadSettles: states settling only when every earlier frontend cookie sits at a cleared scope, for the same reason.
- CookieJar.Jar.Get: requires a name without `;` or `=`, since the keys the source uses are such names.
- The navigation a frontend switch performs is returned as a value, not performed; the reload is a value too. Only the host of the new URL is modelled, not the rest of the URL.
- UrlHost.SetHostname: domain-to-ASCII processing is not modelled. Upper-case letters, non-ASCII labels, `xn--` labels and forbidden code points pass through the model's setter unchanged, where the URL Standard maps or rejects them. IPv4 numbers are unbounded integers, as in the URL Standard, and IPv6 literals are not modelled.
- A switch on a dotted-quad host whose slug is an IPv4 number lands on another IPv4 host. The load there is not stated, because which cookies that host sees depends on browser domain matching, which is not modelled. The load is stated for the case where the setter keeps the old host (`SwitchOnDottedQuadThenLoad`).
- React state updates and the `fetchEnvironments` call in the component's effect are left out, as is `fetchEnvironments` itself (src/components/DevBar/utils.ts:97-111), because they are network and rendering.
- `fetch` is left out: `apiRequest` and the verb helpers return the request they would send. Header names are compared case-sensitively, as object keys are.
- JavaScript numbers are integers in `JsValue`, so `NaN` and `-0` falsiness is not modelled. `JSON.stringify` is a parameter.
- JSON encoding and decoding are parameters in both PHP files, or the decoded view is stored directly. `JSON_PRETTY_PRINT` and the encoder's output format are not modelled.
- Environments.Branches: a 200 reply that decodes to a JSON object, rather than a list, is treated like an undecodable one. PHP would iterate the object's values.
- Reading the cache file can fail, and PHP then prints an empty body. That is not modelled.
- curl timeouts and transport errors are folded into the reply's status code.
- `time()` at the cache check, the clock at the cache write (which becomes the file's `filemtime`) and `date('c')` are parameters. The model does not relate them to the fetches' duration, so any write time is allowed.
- `cleanupOldDataFiles` and its static flag (public/api/users.php:82-108) are left out because they only delete obsolete files.
- PhpCast.IntCast: strings in float or exponent notation (`"1e3"`, `"1.5"`) and values outside the 64-bit range are read only up to the first non-digit. JSON floats as `user_id` are not modelled.
- Users.LoadedUsers: a decoded JSON array is taken to be a list of users. Elements without an `id`, or with a non-integer `id`, are not modelled, and a JSON object decoding to an associative array counts as malformed.
- The `catch` of users.php (status 500) is left out, because nothing in the modelled code throws.
- public/api/statistics.php is left out because it uses a seeded random generator and floating point. The React components (src/components/Features/*, BranchSelector.tsx, Metadata.tsx, src/App.tsx) are left out because they only render. backend-example/index.js is server plumbing.
