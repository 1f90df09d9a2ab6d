/**
 * The DevBar component of src/components/DevBar/Index.tsx: the branch
 * selection it reconciles when the page loads, and `handleBranchSwitch`.
 * The page's location is the jar's `hostname`; navigation is returned as a
 * value instead of being performed.
 */
module DevBar {
  import opened Wrappers
  import opened Text
  import opened Subdomain
  import opened Hosts
  import opened CookieHeader
  import opened CookieJar
  import opened UrlHost

  /** The outcome of the load-time decision: the branch shown and the value written to the frontend cookie, if any. */
  datatype Decision = Decision(frontend: string, write: Option<string>)

  /**
   * The frontend branch chosen from the URL branch and the frontend cookie.
   * A URL branch wins (lower-cased) unless the cookie equals it ignoring case;
   * without a URL branch the cookie or `main` is shown and nothing is written.
   */
  function Reconcile(urlBranch: Option<string>, cookie: Option<string>): (d: Decision)
    ensures d.write.Some? ==> d.frontend == d.write.value
  {
    if Truthy(urlBranch) then
      var normalized := Lower(urlBranch.value);
      if Truthy(cookie) && Lower(cookie.value) != normalized then Decision(normalized, Some(normalized))
      else if !Truthy(cookie) then Decision(normalized, Some(normalized))
      else Decision(cookie.value, None)
    else
      Decision(if Truthy(cookie) then cookie.value else "main", None)
  }

  /**
   * The four rows of the load-time decision: a write happens exactly when a
   * URL branch is present and the cookie is missing or differs from it
   * ignoring case, and then the lower-cased URL branch is both shown and
   * written; otherwise the cookie's own value (or `main`) is shown.
   */
  lemma ReconcileTable(urlBranch: Option<string>, cookie: Option<string>)
    ensures var d := Reconcile(urlBranch, cookie);
      && (d.write.Some? <==> Truthy(urlBranch) && (!Truthy(cookie) || Lower(cookie.value) != Lower(urlBranch.value)))
      && (d.write.Some? ==> d.frontend == Lower(urlBranch.value) && d.write == Some(Lower(urlBranch.value)))
      && (Truthy(urlBranch) ==> Lower(d.frontend) == Lower(urlBranch.value))
      && (Truthy(urlBranch) && d.write.None? ==> d.frontend == cookie.value)
      && (!Truthy(urlBranch) ==> d.frontend == (if Truthy(cookie) then cookie.value else "main") && d.write.None?)
  {
    if Truthy(urlBranch) {
      LowerIdempotent(urlBranch.value);
    }
  }

  /** A URL branch that differs from the cookie only in case keeps the cookie's value and writes nothing. */
  lemma CaseOnlyDifferenceKeepsCookie()
    ensures Reconcile(Some("Main"), Some("main")) == Decision("main", None)
  {
    assert Lower("Main") == "main" by {
      assert LowerChar('M') == 'm';
    }
    assert Lower("main") == "main";
  }

  /** The backend branch shown: its cookie, or `main`. */
  function BackendChoice(cookie: Option<string>): (branch: string)
    ensures branch != ""
    ensures Truthy(cookie) ==> branch == cookie.value
  {
    if Truthy(cookie) then cookie.value else "main"
  }

  /** The jar after the load-time decision. */
  function AfterLoad(jar: seq<Cookie>, hostname: string): seq<Cookie>
  {
    var d := Reconcile(GetBranchFromUrl(hostname), Lookup(jar, FrontendKey));
    if d.write.Some? then AfterSet(jar, hostname, FrontendKey, d.write.value, OneDay) else jar
  }

  /** The cookie keys are valid cookie names. */
  lemma KeysAreValid()
    ensures ValidName(FrontendKey) && ValidName(BackendKey) && FrontendKey != BackendKey
  {
    assert FrontendKey[9] != BackendKey[9];
  }

  /**
   * The effect of the component's mount: read both cookies, decide the
   * frontend branch, write the frontend cookie when the URL disagrees with
   * it, and show the backend cookie or `main`.
   */
  method LoadSelections(jar: Jar) returns (frontend: string, backend: string)
    requires jar.Valid()
    modifies jar
    ensures jar.Valid()
    ensures var d := Reconcile(GetBranchFromUrl(jar.hostname), old(Lookup(jar.cookies, FrontendKey)));
      frontend == d.frontend && jar.cookies == AfterLoad(old(jar.cookies), jar.hostname)
    ensures backend == BackendChoice(old(Lookup(jar.cookies, BackendKey)))
  {
    KeysAreValid();
    var urlBranch := GetBranchFromUrl(jar.hostname);
    var cookieFrontendBranch := jar.Get(FrontendKey);
    var backendCookie := jar.Get(BackendKey);
    backend := if Truthy(backendCookie) then backendCookie.value else "main";
    if Truthy(urlBranch) {
      var normalizedUrlBranch := Lower(urlBranch.value);
      if Truthy(cookieFrontendBranch) && Lower(cookieFrontendBranch.value) != normalizedUrlBranch {
        jar.Set(FrontendKey, normalizedUrlBranch, 86400);
        frontend := normalizedUrlBranch;
      } else if !Truthy(cookieFrontendBranch) {
        jar.Set(FrontendKey, normalizedUrlBranch, 86400);
        frontend := normalizedUrlBranch;
      } else {
        frontend := cookieFrontendBranch.value;
      }
    } else {
      frontend := if Truthy(cookieFrontendBranch) then cookieFrontendBranch.value else "main";
    }
  }

  /** The load never touches the backend cookie. */
  lemma LoadKeepsBackend(jar: seq<Cookie>, hostname: string)
    requires WellFormed(jar)
    ensures Named(AfterLoad(jar, hostname), BackendKey) == Named(jar, BackendKey)
    ensures Lookup(AfterLoad(jar, hostname), BackendKey) == Lookup(jar, BackendKey)
  {
    KeysAreValid();
    var d := Reconcile(GetBranchFromUrl(hostname), Lookup(jar, FrontendKey));
    if d.write.Some? {
      SetKeepsOtherNames(jar, hostname, FrontendKey, d.write.value, OneDay, BackendKey);
    }
  }

  /**
   * After one load the frontend cookie names the branch shown (unless there
   * was neither a URL branch nor a cookie), so a second load writes nothing
   * and shows the same branch.
   */
  lemma LoadSettles(jar: seq<Cookie>, hostname: string)
    requires WellFormed(jar) && AllCleared(jar, hostname, FrontendKey) && ';' !in hostname
    ensures var d := Reconcile(GetBranchFromUrl(hostname), Lookup(jar, FrontendKey));
      var after := AfterLoad(jar, hostname);
      && (Truthy(GetBranchFromUrl(hostname)) || Truthy(Lookup(jar, FrontendKey)) ==> Lookup(after, FrontendKey) == Some(d.frontend))
      && Reconcile(GetBranchFromUrl(hostname), Lookup(after, FrontendKey)) == Decision(d.frontend, None)
  {
    KeysAreValid();
    var url := GetBranchFromUrl(hostname);
    var d := Reconcile(url, Lookup(jar, FrontendKey));
    if d.write.Some? {
      var v := d.write.value;
      assert url.value == hostname[..|url.value|];
      assert ';' !in url.value;
      LowerKeepsNonLetter(url.value, ';');
      SetThenGet(jar, hostname, FrontendKey, v, OneDay);
      SetLeavesSingleCookie(jar, hostname, FrontendKey, v, OneDay);
      TakeUntilPrefix(v, "", ';');
      assert v + "" == v;
      LowerIdempotent(url.value);
    }
  }

  /** Which cookie a switch writes. */
  datatype Axis = Frontend | Backend

  /** What the page does after a switch: go to another host, or reload the same URL. */
  datatype Navigation = NavigateTo(hostname: string) | Reload

  function CookieKey(axis: Axis): string
  {
    match axis
    case Frontend => FrontendKey
    case Backend => BackendKey
  }

  /** The host a frontend switch goes to: label 0 replaced with the branch's slug. */
  function SwitchedHost(hostname: string, branchName: string): string
  {
    Join(Labels(hostname)[0 := BranchToSubdomain(branchName)], '.')
  }

  /**
   * `handleBranchSwitch(type, branchName)`: write the raw name to that axis's
   * cookie, then navigate or reload. A frontend switch navigates to whatever
   * host the `hostname` setter accepts, which is the page's own host when the
   * rewritten host is rejected.
   */
  method SwitchBranch(jar: Jar, axis: Axis, branchName: string) returns (nav: Navigation)
    requires jar.Valid()
    modifies jar
    ensures jar.Valid()
    ensures jar.cookies == AfterSet(old(jar.cookies), jar.hostname, CookieKey(axis), branchName, OneDay)
    ensures nav == if axis == Frontend then NavigateTo(SetHostname(jar.hostname, SwitchedHost(jar.hostname, branchName))) else Reload
  {
    KeysAreValid();
    var cookieKey := if axis == Frontend then FrontendKey else BackendKey;
    jar.Set(cookieKey, branchName, 86400);
    if axis == Frontend {
      var parts := Labels(jar.hostname);
      var subdomain := BranchToSubdomain(branchName);
      parts := parts[0 := subdomain];
      var newHostname := Join(parts, '.');
      nav := NavigateTo(SetHostname(jar.hostname, newHostname));
    } else {
      nav := Reload;
    }
  }

  /** A frontend switch changes label 0 of the host and nothing else: same count, same other labels. */
  lemma SwitchedHostLabels(hostname: string, branchName: string)
    ensures Labels(SwitchedHost(hostname, branchName)) == Labels(hostname)[0 := BranchToSubdomain(branchName)]
    ensures |Labels(SwitchedHost(hostname, branchName))| == |Labels(hostname)|
  {
    var parts := Labels(hostname)[0 := BranchToSubdomain(branchName)];
    assert '.' !in parts[0];
    SplitJoin(parts, '.');
  }

  /** A switch leaves the other axis's cookies as they were. */
  lemma SwitchKeepsOtherAxis(jar: seq<Cookie>, hostname: string, axis: Axis, branchName: string)
    requires WellFormed(jar)
    ensures var other := CookieKey(if axis == Frontend then Backend else Frontend);
      Named(AfterSet(jar, hostname, CookieKey(axis), branchName, OneDay), other) == Named(jar, other)
  {
    KeysAreValid();
    var other := CookieKey(if axis == Frontend then Backend else Frontend);
    SetKeepsOtherNames(jar, hostname, CookieKey(axis), branchName, OneDay, other);
  }

  /** The host a frontend switch goes to names the slug as its branch. */
  lemma SwitchedHostBranch(hostname: string, branchName: string)
    requires |Labels(hostname)| >= 3 && !IsLocal(SwitchedHost(hostname, branchName))
    ensures GetBranchFromUrl(SwitchedHost(hostname, branchName)) == Some(BranchToSubdomain(branchName))
  {
    var parts := Labels(hostname)[0 := BranchToSubdomain(branchName)];
    SwitchedHostLabels(hostname, branchName);
    assert forall i :: 0 <= i < |parts| ==> '.' !in parts[i] by {
      assert Labels(SwitchedHost(hostname, branchName)) == parts;
    }
    BranchOfJoinedHost(parts);
  }

  /** A slug is already lower case. */
  lemma SlugIsLower(slug: string)
    requires IsSlug(slug)
    ensures Lower(slug) == slug
  {
    forall i | 0 <= i < |slug|
      ensures Lower(slug)[i] == slug[i]
    {
      assert IsSlugChar(slug[i]);
    }
  }

  /** Replacing label 0 keeps whether a host of two or more labels ends in a number. */
  lemma SwitchedHostEndsInNumber(hostname: string, branchName: string)
    requires |Labels(hostname)| >= 3
    ensures EndsInNumber(SwitchedHost(hostname, branchName)) == EndsInNumber(hostname)
  {
    SwitchedHostLabels(hostname, branchName);
    EndsInNumberIgnoresFirstLabel(SwitchedHost(hostname, branchName), hostname);
  }

  /** A host of two or more labels that does not end in a number is not local. */
  lemma DomainIsNotLocal(hostname: string)
    requires |Labels(hostname)| >= 2 && !EndsInNumber(hostname)
    ensures !IsLocal(hostname)
  {
    var labels := Labels(hostname);
    SplitFirst(hostname, '.');
    assert '.' in hostname;
    assert '.' !in "localhost";
  }

  /**
   * On a domain host, loading the page a frontend switch navigates to keeps
   * the raw branch name when its lower-case form is already its slug, and
   * otherwise rewrites the cookie to the slug.
   */
  lemma SwitchThenLoad(jar: seq<Cookie>, hostname: string, branchName: string)
    requires WellFormed(jar) && AllCleared(jar, hostname, FrontendKey)
    requires branchName != "" && ';' !in branchName
    requires |Labels(hostname)| >= 3 && !EndsInNumber(hostname)
    requires BranchToSubdomain(branchName) != ""
    ensures var slug := BranchToSubdomain(branchName);
      var target := SetHostname(hostname, SwitchedHost(hostname, branchName));
      && target == SwitchedHost(hostname, branchName)
      && Reconcile(GetBranchFromUrl(target), Lookup(AfterSet(jar, hostname, FrontendKey, branchName, OneDay), FrontendKey))
         == if Lower(branchName) == slug then Decision(branchName, None) else Decision(slug, Some(slug))
  {
    KeysAreValid();
    SwitchedHostEndsInNumber(hostname, branchName);
    SwitchedHostLabels(hostname, branchName);
    DomainIsNotLocal(SwitchedHost(hostname, branchName));
    SwitchedHostBranch(hostname, branchName);
    SetThenLookup(jar, hostname, FrontendKey, branchName, OneDay);
    SlugIsLower(BranchToSubdomain(branchName));
  }

  /** On a dotted-quad host a frontend switch always lands on a dotted-quad host, the same one or a numeric one. */
  lemma SwitchOnDottedQuadStaysLocal(hostname: string, branchName: string)
    requires IsDottedQuad(hostname)
    ensures IsDottedQuad(SetHostname(hostname, SwitchedHost(hostname, branchName)))
  {
    var labels := Labels(hostname);
    assert IsDigits(labels[3]) && HostParts(hostname) == labels;
    SwitchedHostEndsInNumber(hostname, branchName);
  }

  /**
   * On a dotted-quad host, a branch whose slug is not an IPv4 number makes
   * the `hostname` setter reject the rewritten host, so the page reloads on
   * its own host.
   */
  lemma SwitchOnDottedQuadStays(hostname: string, branchName: string)
    requires IsDottedQuad(hostname) && ParseIPv4Number(BranchToSubdomain(branchName)).None?
    ensures SetHostname(hostname, SwitchedHost(hostname, branchName)) == hostname
  {
    var switched := SwitchedHost(hostname, branchName);
    var labels := Labels(hostname);
    assert IsDigits(labels[3]) && HostParts(hostname) == labels;
    SwitchedHostEndsInNumber(hostname, branchName);
    SwitchedHostLabels(hostname, branchName);
    assert HostParts(switched)[0] == BranchToSubdomain(branchName);
  }

  /**
   * Loading the page after such a switch finds no branch in the host, so the
   * raw name in the cookie is shown and nothing is written.
   */
  lemma SwitchOnDottedQuadThenLoad(jar: seq<Cookie>, hostname: string, branchName: string)
    requires WellFormed(jar) && AllCleared(jar, hostname, FrontendKey)
    requires branchName != "" && ';' !in branchName
    requires IsDottedQuad(hostname) && ParseIPv4Number(BranchToSubdomain(branchName)).None?
    ensures Reconcile(GetBranchFromUrl(SetHostname(hostname, SwitchedHost(hostname, branchName))),
                      Lookup(AfterSet(jar, hostname, FrontendKey, branchName, OneDay), FrontendKey))
         == Decision(branchName, None)
  {
    KeysAreValid();
    SwitchOnDottedQuadStays(hostname, branchName);
    SetThenLookup(jar, hostname, FrontendKey, branchName, OneDay);
  }

  /** `main` has no digit to start an IPv4 number with. */
  lemma MainIsNoNumber()
    ensures ParseIPv4Number("main").None?
  {
    assert !IsDigit("main"[0]);
  }

  /** The branch `main` is not an IPv4 number, so switching to it on a dotted-quad host stays on that host. */
  lemma MainSwitchOnDottedQuadStays(hostname: string)
    requires IsDottedQuad(hostname)
    ensures SetHostname(hostname, SwitchedHost(hostname, "main")) == hostname
  {
    MainExample();
    MainIsNoNumber();
    SwitchOnDottedQuadStays(hostname, "main");
  }
}
