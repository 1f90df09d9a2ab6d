/**
 * The browser cookie jar as `document.cookie` shows it, and `getCookie`
 * (src/components/DevBar/utils.ts:38-45), which parses that text.
 *
 * A jar is the sequence of its cookies in creation order; each cookie is
 * keyed by its name and its scope (host-only or an explicit `domain=`).
 */
module CookieHeader {
  import opened Wrappers
  import opened Text

  /** Where a cookie applies: host-only (no `domain` attribute) or a literal `domain=` value. */
  datatype Scope = HostOnly | Domain(domain: string)

  datatype Cookie = Cookie(name: string, scope: Scope, value: string, maxAge: int)

  /** A name the browser can store and `getCookie` can look up: non-empty, without `;` or `=`. */
  predicate ValidName(name: string)
  {
    |name| > 0 && ';' !in name && '=' !in name
  }

  /** No later cookie shares the first one's name and scope. */
  predicate KeyAbsent(jar: seq<Cookie>, name: string, scope: Scope)
  {
    forall c :: c in jar ==> c.name != name || c.scope != scope
  }

  /** No two cookies share a name and a scope. */
  predicate UniqueKeys(jar: seq<Cookie>)
  {
    jar == [] || (KeyAbsent(jar[1..], jar[0].name, jar[0].scope) && UniqueKeys(jar[1..]))
  }

  /** What a browser jar always satisfies: names without `;`/`=`, values without `;`, unique keys. */
  predicate WellFormed(jar: seq<Cookie>)
  {
    && (forall c :: c in jar ==> ValidName(c.name) && ';' !in c.value)
    && UniqueKeys(jar)
  }

  /** The cookies called `name`, in jar order. */
  function Named(jar: seq<Cookie>, name: string): (r: seq<Cookie>)
    ensures forall c :: c in r <==> c in jar && c.name == name
    ensures |r| <= |jar|
  {
    if jar == [] then []
    else (if jar[0].name == name then [jar[0]] else []) + Named(jar[1..], name)
  }

  /** One cookie as `document.cookie` lists it, with the `; ` that separates it from the previous one. */
  function Entry(c: Cookie): string
  {
    "; " + c.name + "=" + c.value
  }

  /** Every cookie's entry, concatenated. */
  function Entries(jar: seq<Cookie>): (r: string)
    ensures jar != [] ==> |r| >= 2 && r[..2] == "; "
  {
    if jar == [] then "" else Entry(jar[0]) + Entries(jar[1..])
  }

  /** `document.cookie`: `name=value` pairs joined by `; `. */
  function Header(jar: seq<Cookie>): string
  {
    if jar == [] then "" else Entries(jar)[2..]
  }

  /**
   * `getCookie(name)` over the text `header`: split `"; " + header` on
   * `"; " + name + "="`; only with exactly two parts, take the second up to
   * its first `;`, and an empty result counts as missing (`|| null`).
   */
  function ParseCookie(header: string, name: string): Option<string>
  {
    var parts := SplitOn("; " + header, "; " + name + "=");
    if |parts| == 2 then
      var v := TakeUntil(parts[1], ';');
      if v == "" then None else Some(v)
    else None
  }

  /** What `getCookie` yields for a jar, stated on the cookies rather than on the text. */
  function Lookup(jar: seq<Cookie>, name: string): Option<string>
  {
    var named := Named(jar, name);
    if |named| == 1 && named[0].value != "" then Some(named[0].value) else None
  }

  /** The entry of a cookie with another valid name does not start with `"; " + name + "="`. */
  lemma EntryMismatch(n: string, k: string, tail: string)
    requires ValidName(n) && ValidName(k) && n != k
    requires |"; " + n + "=" + tail| >= |k| + 3
    ensures ("; " + n + "=" + tail)[..|k| + 3] != "; " + k + "="
  {
    var s := "; " + n + "=" + tail;
    var sep := "; " + k + "=";
    if |n| < |k| {
      assert s[2 + |n|] == '=' && sep[2 + |n|] == k[|n|];
      assert k[|n|] in k;
    } else if n[..|k|] != k {
      var i :| 0 <= i < |k| && n[i] != k[i];
      assert s[2 + i] == n[i] && sep[2 + i] == k[i];
    } else {
      assert |n| > |k|;
      assert s[2 + |k|] == n[|k|] && sep[2 + |k|] == '=';
      assert n[|k|] in n;
    }
  }

  /** The entry of a cookie called `k` starts a new part, which begins with its value. */
  lemma SplitMatchingEntry(c: Cookie, tail: string, k: string)
    requires c.name == k && ';' !in c.value
    ensures var r := SplitOn(tail, "; " + k + "=");
      SplitOn(Entry(c) + tail, "; " + k + "=") == [""] + ([c.value + r[0]] + r[1..])
  {
    var sep := "; " + k + "=";
    var s := Entry(c) + tail;
    assert s == sep + (c.value + tail);
    assert s[..|sep|] == sep && s[|sep|..] == c.value + tail;
    SplitOnPrefix(c.value, tail, sep);
  }

  /** No match of `"; " + k + "="` starts at the entry of a cookie with another name. */
  lemma NoMatchAtOtherEntry(c: Cookie, tail: string, k: string)
    requires ValidName(c.name) && ValidName(k) && c.name != k
    ensures var s := Entry(c) + tail;
      |s| < |k| + 3 || s[..|k| + 3] != "; " + k + "="
  {
    var s := Entry(c) + tail;
    if |s| >= |k| + 3 {
      EntryMismatch(c.name, k, c.value + tail);
      assert s == "; " + c.name + "=" + (c.value + tail);
    }
  }

  /** The entry of a cookie with another name is glued onto the first part. */
  lemma SplitOtherEntry(c: Cookie, tail: string, k: string)
    requires ValidName(c.name) && ';' !in c.value && ValidName(k) && c.name != k
    ensures var r := SplitOn(tail, "; " + k + "=");
      SplitOn(Entry(c) + tail, "; " + k + "=") == [Entry(c) + r[0]] + r[1..]
  {
    var sep := "; " + k + "=";
    var s := Entry(c) + tail;
    var p := Entry(c)[1..];
    assert s[1..] == p + tail;
    assert SplitOn(s, sep) == [[s[0]] + SplitOn(p + tail, sep)[0]] + SplitOn(p + tail, sep)[1..] by {
      NoMatchAtOtherEntry(c, tail, k);
      SplitOnStep(s, sep);
    }
    assert SplitOn(p + tail, sep) == [p + SplitOn(tail, sep)[0]] + SplitOn(tail, sep)[1..] by {
      assert p == " " + c.name + "=" + c.value;
      SplitOnPrefix(p, tail, sep);
    }
    assert [s[0]] + (p + SplitOn(tail, sep)[0]) == Entry(c) + SplitOn(tail, sep)[0];
  }

  /**
   * Splitting the concatenated entries on `"; " + k + "="` gives one part
   * more than there are cookies called `k`; with exactly one such cookie the
   * second part, cut at `;`, is its value.
   */
  lemma {:induction false} SplitEntries(jar: seq<Cookie>, k: string)
    requires WellFormed(jar) && ValidName(k)
    ensures var parts := SplitOn(Entries(jar), "; " + k + "=");
      && |parts| == 1 + |Named(jar, k)|
      && (|Named(jar, k)| == 0 ==> parts == [Entries(jar)])
      && (|Named(jar, k)| == 1 ==> TakeUntil(parts[1], ';') == Named(jar, k)[0].value)
  {
    var sep := "; " + k + "=";
    if jar != [] {
      var c, rest := jar[0], jar[1..];
      assert WellFormed(rest) by {
        assert forall x :: x in rest ==> x in jar;
      }
      SplitEntries(rest, k);
      assert c in jar;
      var tail := Entries(rest);
      assert Entries(jar) == Entry(c) + tail;
      if c.name == k {
        SplitMatchingEntry(c, tail, k);
        if |Named(jar, k)| == 1 {
          assert |Named(rest, k)| == 0;
          assert tail == [] || tail[0] == ';';
          TakeUntilPrefix(c.value, tail, ';');
        }
      } else {
        SplitOtherEntry(c, tail, k);
        assert Named(jar, k) == Named(rest, k);
      }
    }
  }

  /** `getCookie` reads a value exactly when one cookie of that name exists and its value is non-empty. */
  lemma ParseAgreesWithLookup(jar: seq<Cookie>, name: string)
    requires WellFormed(jar) && ValidName(name)
    ensures ParseCookie(Header(jar), name) == Lookup(jar, name)
  {
    SplitEntries(jar, name);
    if jar != [] {
      var e := Entries(jar);
      assert "; " + e[2..] == e;
    } else {
      assert |SplitOn("; ", "; " + name + "=")| == 1;
    }
  }
}
