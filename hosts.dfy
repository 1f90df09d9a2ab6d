/**
 * Hostname classification shared by the cookie helpers and `getBranchFromUrl`
 * (src/components/DevBar/utils.ts).
 */
module Hosts {
  import opened Wrappers
  import opened Text

  /** The labels of a hostname, `hostname.split('.')`. */
  function Labels(hostname: string): seq<string>
  {
    Split(hostname, '.')
  }

  /** The first label of a hostname, `hostname.split('.')[0]`: its longest prefix without a dot. */
  function FirstLabel(hostname: string): (lbl: string)
    ensures '.' !in lbl
    ensures |lbl| <= |hostname| && lbl == hostname[..|lbl|]
    ensures |lbl| < |hostname| ==> hostname[|lbl|] == '.'
  {
    FirstLabelIsPrefix(hostname);
    Labels(hostname)[0]
  }

  /** The first part of a split on `.` is a prefix of the input, followed by a dot or the end. */
  lemma FirstLabelIsPrefix(hostname: string)
    ensures var lbl := Labels(hostname)[0];
      |lbl| <= |hostname| && lbl == hostname[..|lbl|] && (|lbl| < |hostname| ==> hostname[|lbl|] == '.')
  {
    if |Labels(hostname)| >= 2 {
      SplitFirst(hostname, '.');
    } else {
      JoinSplit(hostname, '.');
    }
  }

  /** A host without a dot is its own first label. */
  lemma FirstLabelWhole(hostname: string)
    requires '.' !in hostname
    ensures FirstLabel(hostname) == hostname
  {
    SplitPrefix(hostname, "", '.');
    assert hostname + "" == hostname;
  }

  /** A dot-free label followed by a dot is the first label, whatever follows. */
  lemma FirstLabelBefore(first: string, rest: string)
    requires '.' !in first
    ensures FirstLabel(first + "." + rest) == first
  {
    var tail := "." + rest;
    SplitPrefix(first, tail, '.');
    assert tail[0] == '.' && Split(tail, '.')[0] == "";
    assert first + "." + rest == first + tail;
    assert first + "" == first;
  }

  /** A non-empty run of decimal digits, the regex `\d+`. */
  predicate IsDigits(s: string)
  {
    |s| > 0 && forall i :: 0 <= i < |s| ==> IsDigit(s[i])
  }

  /** The regex `/^\d+\.\d+\.\d+\.\d+$/`: four digit runs joined by dots (no range check). */
  predicate IsDottedQuad(hostname: string)
  {
    var parts := Labels(hostname);
    |parts| == 4 && forall i :: 0 <= i < 4 ==> IsDigits(parts[i])
  }

  /** `hostname === 'localhost' || /^\d+\.\d+\.\d+\.\d+$/.test(hostname)`. */
  predicate IsLocal(hostname: string)
  {
    hostname == "localhost" || IsDottedQuad(hostname)
  }

  /** `getBranchFromUrl()` for the page's hostname. */
  function GetBranchFromUrl(hostname: string): (branch: Option<string>)
    ensures branch.Some? <==> !IsLocal(hostname) && Count(hostname, '.') >= 2
    ensures branch.Some? ==>
      && '.' !in branch.value
      && |branch.value| < |hostname|
      && hostname[..|branch.value|] == branch.value
      && hostname[|branch.value|] == '.'
  {
    if IsLocal(hostname) then None
    else
      var parts := Labels(hostname);
      if |parts| >= 3 then
        SplitFirst(hostname, '.');
        Some(parts[0])
      else None
  }

  /** The labels of a hostname written as the join of separator-free labels. */
  lemma LabelsOfJoin(hostname: string, parts: seq<string>)
    requires |parts| >= 1 && forall i :: 0 <= i < |parts| ==> '.' !in parts[i]
    requires Join(parts, '.') == hostname
    ensures Labels(hostname) == parts
  {
    SplitJoin(parts, '.');
  }

  /** `localhost` and every dotted quad of digit runs are local and yield no branch. */
  lemma LocalHostsHaveNoBranch(quad: seq<string>)
    requires |quad| == 4 && forall i :: 0 <= i < 4 ==> IsDigits(quad[i])
    ensures GetBranchFromUrl("localhost") == None
    ensures GetBranchFromUrl(Join(quad, '.')) == None
  {
    forall i | 0 <= i < 4
      ensures '.' !in quad[i]
    {
      assert forall j :: 0 <= j < |quad[i]| ==> quad[i][j] != '.';
    }
    LabelsOfJoin(Join(quad, '.'), quad);
  }

  /** A bare two-label apex carries no branch. */
  lemma ApexHasNoBranch()
    ensures GetBranchFromUrl("discovery.wang") == None
  {
    LabelsOfJoin("discovery.wang", ["discovery", "wang"]);
  }

  /** A non-local host built from three or more labels yields its first label. */
  lemma BranchOfJoinedHost(parts: seq<string>)
    requires |parts| >= 3 && forall i :: 0 <= i < |parts| ==> '.' !in parts[i]
    requires !(|parts| == 4 && forall i :: 0 <= i < 4 ==> IsDigits(parts[i]))
    ensures GetBranchFromUrl(Join(parts, '.')) == Some(parts[0])
  {
    var host := Join(parts, '.');
    LabelsOfJoin(host, parts);
    assert host[|parts[0]|] == '.';
    assert host != "localhost";
  }

  /** A review host yields its first label. */
  lemma ReviewHostExample()
    ensures GetBranchFromUrl("main.discovery.wang") == Some("main")
  {
    var parts := ["main", "discovery", "wang"];
    assert Join(parts, '.') == "main.discovery.wang" by {
      assert parts[1..] == ["discovery", "wang"];
    }
    BranchOfJoinedHost(parts);
  }

  /** A backend review host yields its first label too, not `api`. */
  lemma ApiHostExample()
    ensures GetBranchFromUrl("feature-x.api.discovery.wang") == Some("feature-x")
  {
    var parts := ["feature-x", "api", "discovery", "wang"];
    assert Join(parts, '.') == "feature-x.api.discovery.wang" by {
      assert parts[1..] == ["api", "discovery", "wang"];
      assert parts[2..] == ["discovery", "wang"];
    }
    assert !IsDigit(parts[1][0]);
    BranchOfJoinedHost(parts);
  }
}
