/**
 * `branchToSubdomain` (src/components/DevBar/utils.ts): turns a free-form
 * branch name into a DNS-safe label in five steps, each total over the
 * previous step's result.
 */
module Subdomain {
  import opened Text

  /** The characters a slug may contain: `[a-z0-9-]`. */
  predicate IsSlugChar(c: char)
  {
    'a' <= c <= 'z' || '0' <= c <= '9' || c == '-'
  }

  /** No `-` immediately followed by another `-`. */
  predicate NoDoubleDash(s: string)
  {
    forall i :: 0 <= i < |s| - 1 ==> !(s[i] == '-' && s[i + 1] == '-')
  }

  /** A subdomain slug: only `[a-z0-9-]`, no leading or trailing `-`, no `--`. */
  predicate IsSlug(s: string)
  {
    && (forall i :: 0 <= i < |s| ==> IsSlugChar(s[i]))
    && (|s| > 0 ==> s[0] != '-' && s[|s| - 1] != '-')
    && NoDoubleDash(s)
  }

  /** Step 2, `.replace(/\//g, '-')`. */
  function ReplaceSlashes(s: string): (r: string)
    ensures |r| == |s|
  {
    seq(|s|, i requires 0 <= i < |s| => if s[i] == '/' then '-' else s[i])
  }

  /** Step 3, `.replace(/[^a-z0-9-]/g, '-')`. */
  function ReplaceInvalid(s: string): (r: string)
    ensures |r| == |s|
    ensures forall i :: 0 <= i < |r| ==> IsSlugChar(r[i])
  {
    seq(|s|, i requires 0 <= i < |s| => if IsSlugChar(s[i]) then s[i] else '-')
  }

  /** Step 4, `.replace(/-+/g, '-')`: every run of dashes becomes one dash. */
  function CollapseDashes(s: string): (r: string)
    ensures |r| <= |s| && (|s| > 0 <==> |r| > 0)
    ensures |s| > 0 ==> r[0] == s[0] && r[|r| - 1] == s[|s| - 1]
    ensures forall i :: 0 <= i < |r| ==> r[i] in s
    ensures NoDoubleDash(r)
    ensures NoDoubleDash(s) ==> r == s
  {
    if |s| <= 1 then s
    else if s[0] == '-' && s[1] == '-' then CollapseDashes(s[1..])
    else [s[0]] + CollapseDashes(s[1..])
  }

  /** Step 5, `.replace(/^-|-$/g, '')`: drop one leading and then one trailing dash. */
  function TrimDashes(s: string): string
  {
    var t := if |s| > 0 && s[0] == '-' then s[1..] else s;
    if |t| > 0 && t[|t| - 1] == '-' then t[..|t| - 1] else t
  }

  /** `branchToSubdomain(branchName)`: the five steps in order. */
  function BranchToSubdomain(branchName: string): (slug: string)
    ensures IsSlug(slug)
  {
    var collapsed := CollapseDashes(ReplaceInvalid(ReplaceSlashes(Lower(branchName))));
    TrimSlug(collapsed);
    TrimDashes(collapsed)
  }

  /** Trimming a string of slug characters without `--` yields a slug. */
  lemma TrimSlug(s: string)
    requires forall i :: 0 <= i < |s| ==> IsSlugChar(s[i])
    requires NoDoubleDash(s)
    ensures IsSlug(TrimDashes(s))
  {
    var t := if |s| > 0 && s[0] == '-' then s[1..] else s;
    assert forall i :: 0 <= i < |t| ==> IsSlugChar(t[i]);
    assert NoDoubleDash(t);
    assert |t| > 0 ==> t[0] != '-';
    if |t| > 0 && t[|t| - 1] == '-' {
      var u := t[..|t| - 1];
      assert |u| > 0 ==> u[|u| - 1] == t[|t| - 2];
    }
  }

  /** A slug is a fixed point of every step, so normalising it changes nothing. */
  lemma {:induction false} SlugIsFixedPoint(s: string)
    requires IsSlug(s)
    ensures BranchToSubdomain(s) == s
  {
    assert Lower(s) == s;
    assert ReplaceSlashes(s) == s;
    assert ReplaceInvalid(s) == s;
    assert CollapseDashes(s) == s;
    TrimKeepsSlug(s);
  }

  /** A slug has no dash to trim. */
  lemma TrimKeepsSlug(s: string)
    requires IsSlug(s)
    ensures TrimDashes(s) == s
  {
  }

  /** `branchToSubdomain` is idempotent. */
  lemma Idempotent(branchName: string)
    ensures BranchToSubdomain(BranchToSubdomain(branchName)) == BranchToSubdomain(branchName)
  {
    SlugIsFixedPoint(BranchToSubdomain(branchName));
  }

  /** A name that lower-casing and replacing `/` already turn into a slug normalises to that slug. */
  lemma NormalisesTo(branchName: string, slug: string)
    requires IsSlug(slug)
    requires ReplaceSlashes(Lower(branchName)) == slug
    ensures BranchToSubdomain(branchName) == slug
  {
    assert ReplaceInvalid(slug) == slug;
    assert CollapseDashes(slug) == slug;
  }

  /** Lower-casing and replacing `/` in the doc comment's first example. */
  lemma FeatureExampleRewrite()
    ensures ReplaceSlashes(Lower("feature/DEV-001-say-hello-world")) == "feature-dev-001-say-hello-world"
  {
    assert Lower("feature/DEV-001-say-hello-world") == "feature/dev-001-say-hello-world";
  }

  /** The doc comment's first example: `/` and upper case are rewritten. */
  lemma FeatureExample()
    ensures BranchToSubdomain("feature/DEV-001-say-hello-world") == "feature-dev-001-say-hello-world"
  {
    var slug := "feature-dev-001-say-hello-world";
    FeatureExampleRewrite();
    NormalisesTo("feature/DEV-001-say-hello-world", slug);
  }

  /** The doc comment's second example is already a slug and maps to itself. */
  lemma DashedExample()
    ensures BranchToSubdomain("add-new-line") == "add-new-line"
  {
    SlugIsFixedPoint("add-new-line");
  }

  /** The doc comment's third example maps to itself. */
  lemma MainExample()
    ensures BranchToSubdomain("main") == "main"
  {
    SlugIsFixedPoint("main");
  }
}
