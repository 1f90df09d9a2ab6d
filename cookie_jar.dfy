/**
 * The cookie helpers of src/components/DevBar/utils.ts: `clearAllCookieScopes`,
 * `setCookie`, `deleteCookie` and `getCookie`, as methods of the page's jar.
 *
 * Each `document.cookie = "name=value; path=/; max-age=N[; domain=D]"`
 * statement of the source is one call of `Write`, whose effect on the jar is
 * `Assign`. Scopes are kept literally: `Domain("a.b")` and `Domain(".a.b")`
 * are different keys.
 */
module CookieJar {
  import opened Wrappers
  import opened Text
  import opened Hosts
  import opened CookieHeader

  /** `COOKIE_KEYS.FRONTEND`. */
  const FrontendKey := "x_target_frontend"
  /** `COOKIE_KEYS.BACKEND`. */
  const BackendKey := "x_target_backend"
  /** `setCookie`'s default `maxAge`, one day. */
  const OneDay := 86400

  /**
   * The jar after one cookie assignment: `max-age` of zero or less removes the
   * cookie with that name and scope; otherwise it replaces that cookie in place
   * or, when there is none, is added last.
   */
  function Assign(jar: seq<Cookie>, c: Cookie): (r: seq<Cookie>)
    ensures forall x :: x in r ==> x in jar || x == c
    ensures forall x :: x in jar && (x.name != c.name || x.scope != c.scope) ==> x in r
    ensures c.maxAge > 0 ==> c in r
  {
    if jar == [] then (if c.maxAge > 0 then [c] else [])
    else if jar[0].name == c.name && jar[0].scope == c.scope then
      (if c.maxAge > 0 then [c] else []) + jar[1..]
    else
      [jar[0]] + Assign(jar[1..], c)
  }

  /** The jar without the cookies called `name` whose scope is in `scopes`. */
  function Drop(jar: seq<Cookie>, name: string, scopes: set<Scope>): (r: seq<Cookie>)
    ensures forall x :: x in r <==> x in jar && !(x.name == name && x.scope in scopes)
    ensures |r| <= |jar|
  {
    if jar == [] then []
    else if jar[0].name == name && jar[0].scope in scopes then Drop(jar[1..], name, scopes)
    else [jar[0]] + Drop(jar[1..], name, scopes)
  }

  /** Named distributes over concatenation. */
  lemma {:induction false} NamedConcat(a: seq<Cookie>, b: seq<Cookie>, n: string)
    ensures Named(a + b, n) == Named(a, n) + Named(b, n)
  {
    if a != [] {
      assert (a + b)[1..] == a[1..] + b;
      NamedConcat(a[1..], b, n);
    } else {
      assert a + b == b;
    }
  }

  /** Assignment never creates a second cookie with the same name and scope. */
  lemma {:induction false} AssignUnique(jar: seq<Cookie>, c: Cookie)
    requires UniqueKeys(jar)
    ensures UniqueKeys(Assign(jar, c))
  {
    if jar != [] {
      var r := Assign(jar, c);
      if jar[0].name == c.name && jar[0].scope == c.scope {
        if c.maxAge > 0 {
          assert r[1..] == jar[1..];
        } else {
          assert r == jar[1..];
        }
      } else {
        AssignUnique(jar[1..], c);
        assert r[1..] == Assign(jar[1..], c);
      }
    }
  }

  /** Assignment leaves the cookies of every other name as they were. */
  lemma {:induction false} AssignKeepsOtherNames(jar: seq<Cookie>, c: Cookie, n: string)
    requires n != c.name
    ensures Named(Assign(jar, c), n) == Named(jar, n)
  {
    if jar == [] {
      if c.maxAge > 0 {
        assert Named([c], n) == Named([c][1..], n);
      }
    } else if jar[0].name == c.name && jar[0].scope == c.scope {
      var head: seq<Cookie> := if c.maxAge > 0 then [c] else [];
      NamedConcat(head, jar[1..], n);
      assert Named(head, n) == [] by {
        if c.maxAge > 0 {
          assert Named([c], n) == Named([c][1..], n);
        }
      }
      assert jar == [jar[0]] + jar[1..];
      NamedConcat([jar[0]], jar[1..], n);
      assert Named([jar[0]], n) == Named([jar[0]][1..], n);
    } else {
      AssignKeepsOtherNames(jar[1..], c, n);
      assert (Assign(jar, c))[1..] == Assign(jar[1..], c);
    }
  }

  /** Dropping keeps keys unique. */
  lemma {:induction false} DropUnique(jar: seq<Cookie>, name: string, scopes: set<Scope>)
    requires UniqueKeys(jar)
    ensures UniqueKeys(Drop(jar, name, scopes))
  {
    if jar != [] {
      DropUnique(jar[1..], name, scopes);
      if !(jar[0].name == name && jar[0].scope in scopes) {
        assert Drop(jar, name, scopes)[1..] == Drop(jar[1..], name, scopes);
      }
    }
  }

  /** Dropping one name leaves the cookies of every other name as they were. */
  lemma {:induction false} DropKeepsOtherNames(jar: seq<Cookie>, name: string, scopes: set<Scope>, n: string)
    requires n != name
    ensures Named(Drop(jar, name, scopes), n) == Named(jar, n)
  {
    if jar != [] {
      DropKeepsOtherNames(jar[1..], name, scopes, n);
      if !(jar[0].name == name && jar[0].scope in scopes) {
        assert Drop(jar, name, scopes)[1..] == Drop(jar[1..], name, scopes);
      }
    }
  }

  /** A well-formed jar stays well-formed under assignment of a valid name and a `;`-free value. */
  lemma AssignWellFormed(jar: seq<Cookie>, c: Cookie)
    requires WellFormed(jar) && ValidName(c.name) && ';' !in c.value
    ensures WellFormed(Assign(jar, c))
  {
    AssignUnique(jar, c);
  }

  /** Expiring a cookie in a jar with unique keys removes exactly that name at that scope. */
  lemma {:induction false} ExpireIsDrop(jar: seq<Cookie>, c: Cookie)
    requires UniqueKeys(jar) && c.maxAge <= 0
    ensures Assign(jar, c) == Drop(jar, c.name, {c.scope})
  {
    if jar != [] {
      if jar[0].name == c.name && jar[0].scope == c.scope {
        DropNothing(jar[1..], c.name, {c.scope});
      } else {
        ExpireIsDrop(jar[1..], c);
      }
    }
  }

  /** Dropping what is not there changes nothing. */
  lemma {:induction false} DropNothing(jar: seq<Cookie>, name: string, scopes: set<Scope>)
    requires forall x :: x in jar ==> !(x.name == name && x.scope in scopes)
    ensures Drop(jar, name, scopes) == jar
  {
    if jar != [] {
      assert jar[0] in jar;
      DropNothing(jar[1..], name, scopes);
      assert jar == [jar[0]] + jar[1..];
    }
  }

  /** Adding a cookie whose key is absent appends it. */
  lemma {:induction false} AssignAbsentAppends(jar: seq<Cookie>, c: Cookie)
    requires KeyAbsent(jar, c.name, c.scope) && c.maxAge > 0
    ensures Assign(jar, c) == jar + [c]
  {
    if jar != [] {
      assert jar[0] in jar;
      AssignAbsentAppends(jar[1..], c);
      assert jar == [jar[0]] + jar[1..];
    }
  }

  /** Two drops of one name are one drop of the union of scopes. */
  lemma {:induction false} DropTwice(jar: seq<Cookie>, name: string, a: set<Scope>, b: set<Scope>)
    ensures Drop(Drop(jar, name, a), name, b) == Drop(jar, name, a + b)
  {
    if jar != [] {
      DropTwice(jar[1..], name, a, b);
      if !(jar[0].name == name && jar[0].scope in a) {
        var d := Drop(jar, name, a);
        assert d[0] == jar[0] && d[1..] == Drop(jar[1..], name, a);
      }
    }
  }

  /** The expiry written at one more scope extends a drop by that scope. */
  lemma ExpireStep(start: seq<Cookie>, name: string, done: set<Scope>, s: Scope)
    requires UniqueKeys(start)
    ensures Assign(Drop(start, name, done), Cookie(name, s, "", 0)) == Drop(start, name, done + {s})
  {
    DropUnique(start, name, done);
    ExpireIsDrop(Drop(start, name, done), Cookie(name, s, "", 0));
    DropTwice(start, name, done, {s});
  }

  /** The apex domain, `"." + parts.slice(-2).join('.')`. */
  function Apex(parts: seq<string>): string
    requires |parts| >= 2
  {
    "." + Join(parts[|parts| - 2..], '.')
  }

  /** `"." + parts.slice(i).join('.')`, the parent domain starting at label `i`. */
  function Suffix(parts: seq<string>, i: nat): string
    requires i <= |parts|
  {
    "." + Join(parts[i..], '.')
  }

  /** The parent domains the clearing loop visits before reaching label `n`. */
  function ParentScopes(parts: seq<string>, n: nat): set<Scope>
    requires n <= |parts|
  {
    set i | 0 <= i < n :: Domain(Suffix(parts, i))
  }

  /** The scopes `clearAllCookieScopes` clears before its loop. */
  function FixedScopes(hostname: string): set<Scope>
  {
    if IsLocal(hostname) then {HostOnly}
    else
      var parts := Labels(hostname);
      {HostOnly, Domain(hostname)} + (if |parts| >= 2 then {Domain(Apex(parts))} else {})
  }

  /** Every scope `clearAllCookieScopes` clears on this host. */
  function ClearedScopes(hostname: string): set<Scope>
  {
    if IsLocal(hostname) then FixedScopes(hostname)
    else FixedScopes(hostname) + ParentScopes(Labels(hostname), |Labels(hostname)| - 1)
  }

  /** The scope `setCookie` and `deleteCookie` write: host-only on local hosts, else the apex. */
  function WriteScope(hostname: string): Scope
  {
    if IsLocal(hostname) then HostOnly
    else
      var parts := Labels(hostname);
      if |parts| >= 2 then Domain(Apex(parts)) else Domain(hostname)
  }

  /** The jar after `clearAllCookieScopes(name)`. */
  function AfterClear(jar: seq<Cookie>, hostname: string, name: string): seq<Cookie>
  {
    Drop(jar, name, ClearedScopes(hostname))
  }

  /** The jar after `setCookie(name, value, maxAge)`. */
  function AfterSet(jar: seq<Cookie>, hostname: string, name: string, value: string, maxAge: int): seq<Cookie>
  {
    Assign(AfterClear(jar, hostname, name), Cookie(name, WriteScope(hostname), TakeUntil(value, ';'), maxAge))
  }

  /** The jar after `deleteCookie(name)`. */
  function AfterDelete(jar: seq<Cookie>, hostname: string, name: string): seq<Cookie>
  {
    Assign(jar, Cookie(name, WriteScope(hostname), "", 0))
  }

  /** Every cookie called `name` sits at a scope that `clearAllCookieScopes` clears on this host. */
  predicate AllCleared(jar: seq<Cookie>, hostname: string, name: string)
  {
    forall c :: c in jar && c.name == name ==> c.scope in ClearedScopes(hostname)
  }

  /** The scope `setCookie` writes is one of the scopes it clears first. */
  lemma WriteScopeIsCleared(hostname: string)
    ensures WriteScope(hostname) in ClearedScopes(hostname)
  {
  }

  /**
   * On a named host whose first label is not empty, every parent domain is
   * cleared but the bare last label `"." + last` never is.
   */
  lemma ClearsParentsButNotLastLabel(hostname: string)
    requires !IsLocal(hostname) && Labels(hostname)[0] != ""
    ensures var parts := Labels(hostname);
      && (forall i :: 0 <= i < |parts| - 1 ==> Domain(Suffix(parts, i)) in ClearedScopes(hostname))
      && Domain(Suffix(parts, |parts| - 1)) !in ClearedScopes(hostname)
  {
    var parts := Labels(hostname);
    var n := |parts|;
    var last := Suffix(parts, n - 1);
    assert parts[n - 1..] == [parts[n - 1]];
    assert |last| == |parts[n - 1]| + 1;
    JoinSplit(hostname, '.');
    if n >= 2 {
      JoinLength(parts, '.');
      assert Domain(hostname) != Domain(last);
      forall i | 0 <= i < n - 1
        ensures Domain(Suffix(parts, i)) != Domain(last)
      {
        var tail := parts[i..];
        assert tail[|tail| - 1] == parts[n - 1];
        JoinLength(tail, '.');
      }
      assert parts[n - 2..] == parts[n - 2..];
    }
  }

  /** After `setCookie`, the name's cookies are the survivors at uncleared scopes plus the new one. */
  lemma SetReplacesClearedCookies(jar: seq<Cookie>, hostname: string, name: string, value: string, maxAge: int)
    requires WellFormed(jar) && maxAge > 0
    ensures var c := Cookie(name, WriteScope(hostname), TakeUntil(value, ';'), maxAge);
      && AfterSet(jar, hostname, name, value, maxAge) == AfterClear(jar, hostname, name) + [c]
      && Named(AfterSet(jar, hostname, name, value, maxAge), name)
         == Named(AfterClear(jar, hostname, name), name) + [c]
  {
    var c := Cookie(name, WriteScope(hostname), TakeUntil(value, ';'), maxAge);
    var cleared := AfterClear(jar, hostname, name);
    WriteScopeIsCleared(hostname);
    AssignAbsentAppends(cleared, c);
    NamedConcat(cleared, [c], name);
  }

  /** When every cookie of that name was at a cleared scope, `setCookie` leaves exactly one: the new one. */
  lemma SetLeavesSingleCookie(jar: seq<Cookie>, hostname: string, name: string, value: string, maxAge: int)
    requires WellFormed(jar) && maxAge > 0 && AllCleared(jar, hostname, name)
    ensures Named(AfterSet(jar, hostname, name, value, maxAge), name)
         == [Cookie(name, WriteScope(hostname), TakeUntil(value, ';'), maxAge)]
  {
    SetReplacesClearedCookies(jar, hostname, name, value, maxAge);
    NoneNamed(AfterClear(jar, hostname, name), name);
  }

  /** A jar with no cookie of that name lists none. */
  lemma {:induction false} NoneNamed(jar: seq<Cookie>, name: string)
    requires forall c :: c in jar ==> c.name != name
    ensures Named(jar, name) == []
  {
    if jar != [] {
      assert jar[0] in jar;
      NoneNamed(jar[1..], name);
    }
  }

  /** `setCookie(k, v)` then `getCookie(k)` gives back `v` when `v` is non-empty and has no `;`. */
  lemma SetThenGet(jar: seq<Cookie>, hostname: string, name: string, value: string, maxAge: int)
    requires WellFormed(jar) && ValidName(name) && maxAge > 0 && AllCleared(jar, hostname, name)
    requires value != "" && ';' !in value
    ensures ParseCookie(Header(AfterSet(jar, hostname, name, value, maxAge)), name) == Some(value)
  {
    var c := Cookie(name, WriteScope(hostname), TakeUntil(value, ';'), maxAge);
    TakeUntilPrefix(value, "", ';');
    assert value + "" == value;
    SetLeavesSingleCookie(jar, hostname, name, value, maxAge);
    DropUnique(jar, name, ClearedScopes(hostname));
    AssignWellFormed(AfterClear(jar, hostname, name), c);
    ParseAgreesWithLookup(AfterSet(jar, hostname, name, value, maxAge), name);
  }

  /** `setCookie` keeps the jar well-formed. */
  lemma SetWellFormed(jar: seq<Cookie>, hostname: string, name: string, value: string, maxAge: int)
    requires WellFormed(jar) && ValidName(name)
    ensures WellFormed(AfterSet(jar, hostname, name, value, maxAge))
  {
    DropUnique(jar, name, ClearedScopes(hostname));
    TakeUntilHasNoSeparator(value);
    AssignWellFormed(AfterClear(jar, hostname, name), Cookie(name, WriteScope(hostname), TakeUntil(value, ';'), maxAge));
  }

  /** The stored value never holds `;`. */
  lemma TakeUntilHasNoSeparator(value: string)
    ensures ';' !in TakeUntil(value, ';')
  {
  }

  /** The jar-level form of the round trip: the name looks up to the value written. */
  lemma SetThenLookup(jar: seq<Cookie>, hostname: string, name: string, value: string, maxAge: int)
    requires WellFormed(jar) && ValidName(name) && maxAge > 0 && AllCleared(jar, hostname, name)
    requires value != "" && ';' !in value
    ensures Lookup(AfterSet(jar, hostname, name, value, maxAge), name) == Some(value)
  {
    SetThenGet(jar, hostname, name, value, maxAge);
    SetWellFormed(jar, hostname, name, value, maxAge);
    ParseAgreesWithLookup(AfterSet(jar, hostname, name, value, maxAge), name);
  }

  /** `setCookie(k, ..)` does not touch any cookie with another name, so `getCookie` of it is unchanged. */
  lemma SetKeepsOtherNames(jar: seq<Cookie>, hostname: string, name: string, value: string, maxAge: int, other: string)
    requires WellFormed(jar) && ValidName(name) && ValidName(other) && other != name
    ensures Named(AfterSet(jar, hostname, name, value, maxAge), other) == Named(jar, other)
    ensures ParseCookie(Header(AfterSet(jar, hostname, name, value, maxAge)), other)
         == ParseCookie(Header(jar), other)
  {
    var c := Cookie(name, WriteScope(hostname), TakeUntil(value, ';'), maxAge);
    DropUnique(jar, name, ClearedScopes(hostname));
    AssignWellFormed(AfterClear(jar, hostname, name), c);
    DropKeepsOtherNames(jar, name, ClearedScopes(hostname), other);
    AssignKeepsOtherNames(AfterClear(jar, hostname, name), c, other);
    ParseAgreesWithLookup(jar, other);
    ParseAgreesWithLookup(AfterSet(jar, hostname, name, value, maxAge), other);
  }

  /** `deleteCookie` removes the name at its one write scope only; copies at other scopes survive. */
  lemma DeleteClearsOneScope(jar: seq<Cookie>, hostname: string, name: string)
    requires WellFormed(jar)
    ensures AfterDelete(jar, hostname, name) == Drop(jar, name, {WriteScope(hostname)})
    ensures forall c :: (c in jar && c.name == name && c.scope != WriteScope(hostname)
      ==> c in AfterDelete(jar, hostname, name))
    ensures forall c :: c in AfterDelete(jar, hostname, name) ==> c.name != name || c.scope != WriteScope(hostname)
  {
    ExpireIsDrop(jar, Cookie(name, WriteScope(hostname), "", 0));
  }

  /** The cookies the page can see, with `document.cookie` and the three helpers. */
  class Jar {
    /** `window.location.hostname`, fixed for the page's lifetime. */
    const hostname: string
    /** The cookies in creation order. */
    var cookies: seq<Cookie>

    ghost predicate Valid()
      reads this
    {
      WellFormed(cookies)
    }

    constructor (hostname: string, cookies: seq<Cookie>)
      requires WellFormed(cookies)
      ensures this.hostname == hostname && this.cookies == cookies && Valid()
    {
      this.hostname := hostname;
      this.cookies := cookies;
    }

    /** `document.cookie`. */
    function DocumentCookie(): string
      reads this
    {
      Header(cookies)
    }

    /** `getCookie(name)`: a value exactly when one cookie has that name and its value is non-empty. */
    function Get(name: string): (value: Option<string>)
      reads this
      requires Valid() && ValidName(name)
      ensures value == Lookup(cookies, name)
      ensures value.Some? ==> value.value != "" && ';' !in value.value
    {
      ParseAgreesWithLookup(cookies, name);
      assert |Named(cookies, name)| == 1 ==> Named(cookies, name)[0] in cookies;
      ParseCookie(DocumentCookie(), name)
    }

    /** One `document.cookie = "name=value; path=/; max-age=..; [domain=..]"` statement. */
    method Write(name: string, value: string, maxAge: int, scope: Scope)
      requires Valid() && ValidName(name)
      modifies this
      ensures Valid()
      ensures cookies == Assign(old(cookies), Cookie(name, scope, TakeUntil(value, ';'), maxAge))
    {
      var c := Cookie(name, scope, TakeUntil(value, ';'), maxAge);
      AssignWellFormed(cookies, c);
      cookies := Assign(cookies, c);
    }

    /** `clearAllCookieScopes(name)`: expire the name at every scope it may have been set at. */
    method ClearAllScopes(name: string)
      requires Valid() && ValidName(name)
      modifies this
      ensures Valid()
      ensures cookies == AfterClear(old(cookies), hostname, name)
    {
      ghost var start := cookies;
      ghost var done: set<Scope> := {};
      DropNothing(start, name, done);
      var parts := Labels(hostname);
      ExpireStep(start, name, done, HostOnly);
      Write(name, "", 0, HostOnly);
      done := done + {HostOnly};
      if IsLocal(hostname) {
        assert done == ClearedScopes(hostname);
        return;
      }
      ExpireStep(start, name, done, Domain(hostname));
      Write(name, "", 0, Domain(hostname));
      done := done + {Domain(hostname)};
      if |parts| >= 2 {
        var rootDomain := "." + Join(parts[|parts| - 2..], '.');
        ExpireStep(start, name, done, Domain(rootDomain));
        Write(name, "", 0, Domain(rootDomain));
        done := done + {Domain(rootDomain)};
      }
      assert done + ParentScopes(parts, |parts| - 1) == ClearedScopes(hostname);
      ClearParentDomains(name, parts, start, done);
    }

    /** The loop of `clearAllCookieScopes`: expire the name at `"." + parts.slice(i).join('.')` for every label but the last. */
    method ClearParentDomains(name: string, parts: seq<string>, ghost start: seq<Cookie>, ghost done: set<Scope>)
      requires Valid() && ValidName(name) && |parts| >= 1
      requires UniqueKeys(start) && cookies == Drop(start, name, done)
      modifies this
      ensures Valid()
      ensures cookies == Drop(start, name, done + ParentScopes(parts, |parts| - 1))
    {
      assert done + ParentScopes(parts, 0) == done;
      var i := 0;
      while i < |parts| - 1
        invariant 0 <= i <= |parts| - 1
        invariant Valid()
        invariant cookies == Drop(start, name, done + ParentScopes(parts, i))
      {
        var domain := "." + Join(parts[i..], '.');
        ExpireStep(start, name, done + ParentScopes(parts, i), Domain(domain));
        Write(name, "", 0, Domain(domain));
        assert ParentScopes(parts, i + 1) == ParentScopes(parts, i) + {Domain(Suffix(parts, i))};
        assert done + ParentScopes(parts, i + 1) == done + ParentScopes(parts, i) + {Domain(domain)};
        i := i + 1;
      }
    }

    /** `setCookie(name, value, maxAge)`: clear every scope, then write at the host-only or apex scope. */
    method Set(name: string, value: string, maxAge: int := OneDay)
      requires Valid() && ValidName(name)
      modifies this
      ensures Valid()
      ensures cookies == AfterSet(old(cookies), hostname, name, value, maxAge)
    {
      ClearAllScopes(name);
      if IsLocal(hostname) {
        Write(name, value, maxAge, HostOnly);
        return;
      }
      var parts := Labels(hostname);
      var rootDomain := if |parts| >= 2 then "." + Join(parts[|parts| - 2..], '.') else hostname;
      Write(name, value, maxAge, Domain(rootDomain));
    }

    /** `deleteCookie(name)`: expire the name at the host-only or apex scope only. */
    method Delete(name: string)
      requires Valid() && ValidName(name)
      modifies this
      ensures Valid()
      ensures cookies == AfterDelete(old(cookies), hostname, name)
    {
      if IsLocal(hostname) {
        Write(name, "", 0, HostOnly);
        return;
      }
      var parts := Labels(hostname);
      var rootDomain := if |parts| >= 2 then "." + Join(parts[|parts| - 2..], '.') else hostname;
      Write(name, "", 0, Domain(rootDomain));
    }
  }
}
