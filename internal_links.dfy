/**
 * `add_links_to_description` of the rule-based link inserter: links at most one
 * phrase per keyword cluster, at most three in all, trying the role's own
 * cluster first and the general cluster next.
 */
module InternalLinks {
  import opened Wrappers
  import opened Strings
  import opened PhraseMatch

  // ---------------------------------------------------------------- the clusters

  datatype Cluster = CFO | CMO | CTO | COO | General

  /** The cluster's key in `KEYWORD_CLUSTERS`. */
  function Name(c: Cluster): string {
    match c
    case CFO => "CFO"
    case CMO => "CMO"
    case CTO => "CTO"
    case COO => "COO"
    case General => "general"
  }

  const UrlPrefix := "/fractional-jobs"

  /** The link target every pattern of the cluster uses: the jobs page, filtered by role. */
  function Url(c: Cluster): (u: string)
    ensures |u| >= |UrlPrefix| && u[..|UrlPrefix|] == UrlPrefix
  {
    UrlPrefix + match c
      case CFO => "?role=CFO"
      case CMO => "?role=CMO"
      case CTO => "?role=CTO"
      case COO => "?role=COO"
      case General => ""
  }

  /** The patterns of a cluster, in the order they are tried: eight to ten of them. */
  function Patterns(c: Cluster): (r: seq<Pattern>)
    ensures 8 <= |r| <= 10
  {
    match c
    case CFO => [
      Pattern("Fractional CFO", OptionalS), Pattern("fractional CFO", OptionalS),
      Pattern("Fractional Finance Director", OptionalS), Pattern("fractional finance director", OptionalS),
      Pattern("CFO role", OptionalS), Pattern("part-time CFO", OptionalS),
      Pattern("CFO opportunit", YOrIes), Pattern("finance leadership", Plain),
      Pattern("senior finance leader", OptionalS), Pattern("strategic financial", Plain)]
    case CMO => [
      Pattern("Fractional CMO", OptionalS), Pattern("fractional CMO", OptionalS),
      Pattern("Fractional Marketing Director", OptionalS), Pattern("fractional marketing director", OptionalS),
      Pattern("CMO role", OptionalS), Pattern("part-time CMO", OptionalS),
      Pattern("CMO opportunit", YOrIes), Pattern("marketing leadership", Plain)]
    case CTO => [
      Pattern("Fractional CTO", OptionalS), Pattern("fractional CTO", OptionalS),
      Pattern("Fractional Tech Director", OptionalS), Pattern("fractional tech director", OptionalS),
      Pattern("CTO role", OptionalS), Pattern("part-time CTO", OptionalS),
      Pattern("CTO opportunit", YOrIes), Pattern("technology leadership", Plain),
      Pattern("technical leadership", Plain)]
    case COO => [
      Pattern("Fractional COO", OptionalS), Pattern("fractional COO", OptionalS),
      Pattern("Fractional Operations Director", OptionalS), Pattern("fractional operations director", OptionalS),
      Pattern("COO role", OptionalS), Pattern("part-time COO", OptionalS),
      Pattern("COO opportunit", YOrIes), Pattern("operations leadership", Plain)]
    case General => [
      Pattern("fractional role", OptionalS), Pattern("fractional job", OptionalS),
      Pattern("fractional executive", OptionalS), Pattern("fractional leader", OptionalS),
      Pattern("fractional position", OptionalS), Pattern("part-time executive", OptionalS),
      Pattern("portfolio career", OptionalS), Pattern("fractional opportunit", YOrIes),
      Pattern("fractional work", Plain), Pattern("fractional engagement", OptionalS)]
  }

  /** One cluster of `KEYWORD_CLUSTERS`: its link target and its patterns. */
  datatype ClusterSpec = ClusterSpec(url: string, patterns: seq<Pattern>)

  /** `KEYWORD_CLUSTERS`. */
  function KeywordClusters(c: Cluster): (r: ClusterSpec)
    ensures r.url == Url(c)
  {
    ClusterSpec(Url(c), Patterns(c))
  }

  /** Every link target of the table points into the jobs pages. */
  predicate LinksInternal(table: Cluster -> ClusterSpec) {
    forall c :: |table(c).url| >= |UrlPrefix| && table(c).url[..|UrlPrefix|] == UrlPrefix
  }

  lemma KeywordClustersLinkInternal()
    ensures LinksInternal(KeywordClusters)
  {
  }

  /** Text holding this already has an internal link and is left alone. */
  const Marker := "](" + UrlPrefix

  const MaxLinks := 3

  // ---------------------------------------------------------------- the cluster order

  /** `name in KEYWORD_CLUSTERS`, and which cluster it names. */
  function ClusterNamed(name: string): (r: Option<Cluster>)
    ensures r.Some? ==> Name(r.value) == name
    ensures r.None? ==> forall c: Cluster :: Name(c) != name
  {
    if name == "CFO" then Some(CFO)
    else if name == "CMO" then Some(CMO)
    else if name == "CTO" then Some(CTO)
    else if name == "COO" then Some(COO)
    else if name == "general" then Some(General)
    else None
  }

  /**
   * The cluster the role category puts first, if any: the cluster it names once
   * upper-cased, else the first whose hint it contains. An upper-cased name is
   * never "general", so the general cluster is never chosen here.
   */
  function Priority(role: Option<string>): (r: Option<Cluster>)
    ensures r != Some(General)
    ensures role.None? || role == Some("") ==> r.None?
  {
    if role.None? || role.value == "" then None
    else
      var upper := ToUpper(role.value);
      var named := ClusterNamed(upper);
      if named.Some? then
        assert upper != "general" by {
          if upper == "general" {
            ToUpperHasNoLowerCase(role.value, 0);
          }
        }
        named
      else if Contains(upper, "CFO") || Contains(upper, "FINANCE") then Some(CFO)
      else if Contains(upper, "CMO") || Contains(upper, "MARKET") then Some(CMO)
      else if Contains(upper, "CTO") || Contains(upper, "TECH") then Some(CTO)
      else if Contains(upper, "COO") || Contains(upper, "OPERATION") then Some(COO)
      else None
  }

  /**
   * The hints are substring tests, and "CTO" occurs inside "DIRECTOR": a
   * director's role that misses the finance and marketing hints is led by the
   * CTO cluster, before the operations hint is tested.
   */
  lemma DirectorReadsAsCto()
    ensures Priority(Some("Director")) == Some(CTO)
  {
    assert ToUpper("Director") == "DIRECTOR";
    DirectorNotFinance();
    DirectorNotMarketing();
    DirectorHasCto();
    assert ClusterNamed("DIRECTOR").None?;
  }

  /** "CTO" occurs inside "DIRECTOR". */
  lemma DirectorHasCto()
    ensures Contains("DIRECTOR", "CTO")
  {
    assert OccursAt("DIRECTOR", "CTO", 4);
  }

  /** "DIRECTOR" has no finance hint. */
  lemma DirectorNotFinance()
    ensures !Contains("DIRECTOR", "CFO") && !Contains("DIRECTOR", "FINANCE")
  {
    MissingCharNotContained("DIRECTOR", "CFO", 1);
    MissingCharNotContained("DIRECTOR", "FINANCE", 0);
  }

  /** "DIRECTOR" has no marketing hint. */
  lemma DirectorNotMarketing()
    ensures !Contains("DIRECTOR", "CMO") && !Contains("DIRECTOR", "MARKET")
  {
    MissingCharNotContained("DIRECTOR", "CMO", 1);
    MissingCharNotContained("DIRECTOR", "MARKET", 0);
  }

  predicate NoDuplicates(s: seq<Cluster>) {
    forall i, j :: 0 <= i < j < |s| ==> s[i] != s[j]
  }

  lemma AppendKeepsDistinct(s: seq<Cluster>, x: Cluster)
    requires NoDuplicates(s)
    ensures NoDuplicates(if x in s then s else s + [x])
  {
  }

  lemma TailKeepsDistinct(s: seq<Cluster>)
    requires NoDuplicates(s) && s != []
    ensures NoDuplicates(s[1..]) && s[0] !in s[1..]
  {
  }

  /** `order` followed by the clusters of `rest` it does not hold yet, in `rest`'s order. */
  function AppendMissing(order: seq<Cluster>, rest: seq<Cluster>): (r: seq<Cluster>)
    requires NoDuplicates(order) && NoDuplicates(rest)
    ensures NoDuplicates(r) && |order| <= |r| && r[..|order|] == order
    ensures forall i :: 0 <= i < |rest| ==> rest[i] in r
    decreases |rest|
  {
    if rest == [] then order
    else
      var next := if rest[0] in order then order else order + [rest[0]];
      TailKeepsDistinct(rest);
      AppendKeepsDistinct(order, rest[0]);
      var r := AppendMissing(next, rest[1..]);
      assert r[..|order|] == r[..|next|][..|order|];
      assert rest[0] in r by {
        assert rest[0] in next;
        assert r[..|next|] == next;
      }
      assert forall i :: 1 <= i < |rest| ==> rest[i] == rest[1..][i - 1];
      r
  }

  /** The clusters appended after the leading ones, in the order the source lists them. */
  const Specialists: seq<Cluster> := [CFO, CMO, CTO, COO]

  /** The clusters `cluster_order` starts with: the role's cluster, if any, then "general". */
  function Leading(role: Option<string>): (r: seq<Cluster>)
    ensures NoDuplicates(r) && General in r
  {
    match Priority(role)
    case Some(c) => [c, General]
    case None => [General]
  }

  /** One step of `AppendMissing`, as the appending loop takes it. */
  lemma AppendMissingStep(order: seq<Cluster>, rest: seq<Cluster>, next: seq<Cluster>)
    requires NoDuplicates(order) && NoDuplicates(rest) && rest != []
    requires next == if rest[0] in order then order else order + [rest[0]]
    ensures NoDuplicates(next) && NoDuplicates(rest[1..])
    ensures AppendMissing(next, rest[1..]) == AppendMissing(order, rest)
  {
  }

  /**
   * `cluster_order`: a duplicate-free ordering of all five clusters, led by the
   * role's cluster and then "general" when the role names one, else led by "general".
   */
  function ClusterOrder(role: Option<string>): (r: seq<Cluster>)
    ensures NoDuplicates(r) && HasAllClusters(r)
    ensures |r| == 5
    ensures Priority(role).None? ==> r[0] == General
    ensures Priority(role).Some? ==> r[0] == Priority(role).value && r[1] == General
  {
    var head := Leading(role);
    var r := AppendMissing(head, Specialists);
    assert r[0] == head[0];
    assert Specialists[0] in r && Specialists[1] in r;
    assert Specialists[2] in r && Specialists[3] in r;
    AllClustersCount(r);
    r
  }

  predicate HasAllClusters(r: seq<Cluster>) {
    CFO in r && CMO in r && CTO in r && COO in r && General in r
  }

  /** A duplicate-free list holding all five clusters has length five. */
  lemma AllClustersCount(r: seq<Cluster>)
    requires NoDuplicates(r) && HasAllClusters(r)
    ensures |r| == 5
  {
    var s := set i | 0 <= i < |r| :: r[i];
    forall c: Cluster ensures c in s {
      EveryCluster(c);
      var i :| 0 <= i < |r| && r[i] == c;
    }
    forall c | c in s ensures c in {CFO, CMO, CTO, COO, General} {
      EveryCluster(c);
    }
    assert s == {CFO, CMO, CTO, COO, General};
    DistinctCount(r);
  }

  lemma InEveryOrder(c: Cluster, r: seq<Cluster>)
    requires HasAllClusters(r)
    ensures c in r
  {
    match c
    case CFO =>
    case CMO =>
    case CTO =>
    case COO =>
    case General =>
  }

  lemma EveryCluster(c: Cluster)
    ensures c == General || c in [CFO, CMO, CTO, COO]
  {
    match c
    case CFO =>
    case CMO =>
    case CTO =>
    case COO =>
    case General =>
  }

  lemma {:induction false} DistinctCount(r: seq<Cluster>)
    requires NoDuplicates(r)
    ensures |set i | 0 <= i < |r| :: r[i]| == |r|
  {
    if r != [] {
      var init := r[..|r| - 1];
      DistinctCount(init);
      var s := set i | 0 <= i < |init| :: init[i];
      assert (set i | 0 <= i < |r| :: r[i]) == s + {r[|r| - 1]};
      assert r[|r| - 1] !in s;
    }
  }

  /** The priority computation: `insert(0, ...)` of the role's cluster, then the appending loop. */
  method ComputeClusterOrder(role: Option<string>) returns (order: seq<Cluster>)
    ensures order == ClusterOrder(role)
  {
    order := [General];
    var p := Priority(role);
    if p.Some? {
      order := [p.value] + order;
    }
    assert order == Leading(role);
    order := AppendEach(order, Specialists);
  }

  /** The loop appending each cluster of `rest` that `order` does not hold yet. */
  method AppendEach(head: seq<Cluster>, rest: seq<Cluster>) returns (order: seq<Cluster>)
    requires NoDuplicates(head) && NoDuplicates(rest)
    ensures order == AppendMissing(head, rest)
  {
    order := head;
    var i := 0;
    while i < |rest|
      invariant 0 <= i <= |rest|
      invariant NoDuplicates(order) && NoDuplicates(rest[i..])
      invariant AppendMissing(order, rest[i..]) == AppendMissing(head, rest)
    {
      ghost var prev := order;
      if rest[i] !in order {
        order := order + [rest[i]];
      }
      AppendMissingStep(prev, rest[i..], order);
      assert rest[i..][1..] == rest[i + 1..];
      i := i + 1;
    }
    assert rest[i..] == [];
  }

  // ---------------------------------------------------------------- one cluster

  /** The index of the first pattern with a match. */
  function FirstMatching(text: string, pats: seq<Pattern>, from: nat): (r: Option<nat>)
    requires from <= |pats|
    ensures r.Some? ==> from <= r.value < |pats| && Search(text, pats[r.value]).Some?
    ensures r.Some? ==> forall k :: from <= k < r.value ==> Search(text, pats[k]).None?
    ensures r.None? ==> forall k :: from <= k < |pats| ==> Search(text, pats[k]).None?
    decreases |pats| - from
  {
    if from == |pats| then None
    else if Search(text, pats[from]).Some? then Some(from)
    else FirstMatching(text, pats, from + 1)
  }

  /**
   * One cluster's turn: the first of its patterns that matches is applied at its
   * leftmost occurrence; `None` when no pattern matches.
   */
  function ApplyCluster(spec: ClusterSpec, text: string): (r: Option<string>)
    ensures r.None? <==> forall k :: 0 <= k < |spec.patterns| ==> Search(text, spec.patterns[k]).None?
  {
    match FirstMatching(text, spec.patterns, 0)
    case None => None
    case Some(k) => Some(SubFirst(text, spec.patterns[k], spec.url))
  }

  /** Which pattern `ApplyCluster` uses, and where. */
  lemma ApplyClusterUsesFirstPattern(spec: ClusterSpec, text: string, k: nat)
    requires k < |spec.patterns| && Search(text, spec.patterns[k]).Some?
    requires forall j :: 0 <= j < k ==> Search(text, spec.patterns[j]).None?
    ensures var m := Search(text, spec.patterns[k]).value;
      ApplyCluster(spec, text) == Some(text[..m.start] + Anchor(m.group, spec.url) + text[m.end..])
  {
  }

  /** A pattern that repeats the one before it in another letter case is never the first to match. */
  lemma CaseDuplicateNeverFirst(text: string, pats: seq<Pattern>, k: nat)
    requires k + 1 < |pats| && pats[k].suffix == pats[k + 1].suffix
    requires EqualsIgnoreCase(pats[k].stem, pats[k + 1].stem)
    ensures FirstMatching(text, pats, 0) != Some(k + 1)
  {
    CaseVariantsSearchAlike(text, pats[k].stem, pats[k + 1].stem, pats[k].suffix, 0);
  }

  // ---------------------------------------------------------------- the whole text

  datatype Outcome = Outcome(text: string, linksAdded: nat, clustersUsed: seq<Cluster>)

  /** The state after cluster `c`'s turn: one more link exactly when the cluster has a match. */
  function Step(table: Cluster -> ClusterSpec, st: Outcome, c: Cluster): (r: Outcome)
    ensures r.linksAdded == st.linksAdded <==> ApplyCluster(table(c), st.text).None?
    ensures r.linksAdded == st.linksAdded ==> r == st
    ensures r.linksAdded != st.linksAdded ==>
      r == Outcome(ApplyCluster(table(c), st.text).value, st.linksAdded + 1, st.clustersUsed + [c])
  {
    match ApplyCluster(table(c), st.text)
    case None => st
    case Some(t) => Outcome(t, st.linksAdded + 1, st.clustersUsed + [c])
  }

  /**
   * The loop over the cluster order, stopping once three links are in: at most
   * one link per cluster, and never more than three in all.
   */
  function Run(table: Cluster -> ClusterSpec, st: Outcome, order: seq<Cluster>): (r: Outcome)
    ensures st.linksAdded <= r.linksAdded <= st.linksAdded + |order|
    ensures st.linksAdded <= MaxLinks ==> r.linksAdded <= MaxLinks
    decreases |order|
  {
    if order == [] || st.linksAdded >= MaxLinks then st
    else Run(table, Step(table, st, order[0]), order[1..])
  }

  /**
   * `add_links_to_description(text, role_category)` over a cluster table: an
   * empty or already linked text is returned as it is, and at most three links
   * are added.
   */
  function AddLinksWith(table: Cluster -> ClusterSpec, text: string, role: Option<string>): (r: Outcome)
    ensures text == "" || Contains(text, Marker) ==> r == Outcome(text, 0, [])
    ensures r.linksAdded <= MaxLinks
  {
    if text == "" || Contains(text, Marker) then Outcome(text, 0, [])
    else Run(table, Outcome(text, 0, []), ClusterOrder(role))
  }

  /** `add_links_to_description(text, role_category)` with `KEYWORD_CLUSTERS`. */
  function AddLinks(text: string, role: Option<string>): (r: Outcome)
    ensures r.linksAdded <= MaxLinks && r.linksAdded == |r.clustersUsed| && NoDuplicates(r.clustersUsed)
    ensures r.linksAdded == 0 ==> r.text == text
    ensures r.linksAdded > 0 ==> Contains(r.text, Marker)
  {
    KeywordClustersLinkInternal();
    AddLinksBounds(KeywordClusters, text, role);
    AddLinksWith(KeywordClusters, text, role)
  }

  /**
   * Below the cap, the run takes the first cluster's turn, which links a phrase
   * exactly when the cluster has a match, and goes on with the rest.
   */
  lemma RunTurn(table: Cluster -> ClusterSpec, st: Outcome, order: seq<Cluster>, next: Outcome)
    requires order != [] && st.linksAdded < MaxLinks
    requires next == Step(table, st, order[0])
    ensures Run(table, st, order) == Run(table, next, order[1..])
  {
  }

  /** A turn's outcome, from whether the cluster linked a phrase and the text it produced. */
  lemma StepOutcome(table: Cluster -> ClusterSpec, st: Outcome, c: Cluster, text: string, linked: bool)
    requires linked ==> ApplyCluster(table(c), st.text) == Some(text)
    requires !linked ==> ApplyCluster(table(c), st.text) == None
    ensures Step(table, st, c)
      == if linked then Outcome(text, st.linksAdded + 1, st.clustersUsed + [c]) else st
  {
  }

  // ---------------------------------------------------------------- properties

  /** `u` can be obtained from `o` by deleting elements. */
  predicate IsSubsequence(u: seq<Cluster>, o: seq<Cluster>)
    decreases |o|
  {
    u == [] || (o != [] && ((u[0] == o[0] && IsSubsequence(u[1..], o[1..])) || IsSubsequence(u, o[1..])))
  }

  lemma {:induction false} SubsequenceMembers(u: seq<Cluster>, o: seq<Cluster>)
    requires IsSubsequence(u, o)
    ensures forall x :: x in u ==> x in o
    decreases |o|
  {
    if u != [] {
      if u[0] == o[0] && IsSubsequence(u[1..], o[1..]) {
        SubsequenceMembers(u[1..], o[1..]);
        assert forall x :: x in u ==> x == u[0] || x in u[1..];
      } else {
        SubsequenceMembers(u, o[1..]);
      }
    }
  }

  /** A subsequence of a duplicate-free list is duplicate-free. */
  lemma {:induction false} SubsequenceNoDuplicates(u: seq<Cluster>, o: seq<Cluster>)
    requires IsSubsequence(u, o) && NoDuplicates(o)
    ensures NoDuplicates(u)
    decreases |o|
  {
    if u != [] {
      assert NoDuplicates(o[1..]) by {
        forall i, j | 0 <= i < j < |o| - 1 ensures o[1..][i] != o[1..][j] {
          assert o[1..][i] == o[i + 1] && o[1..][j] == o[j + 1];
        }
      }
      if u[0] == o[0] && IsSubsequence(u[1..], o[1..]) {
        SubsequenceNoDuplicates(u[1..], o[1..]);
        SubsequenceMembers(u[1..], o[1..]);
        assert o[0] !in o[1..];
        forall i, j | 0 <= i < j < |u| ensures u[i] != u[j] {
          if i == 0 {
            assert u[j] == u[1..][j - 1];
          } else {
            assert u[i] == u[1..][i - 1] && u[j] == u[1..][j - 1];
          }
        }
      } else {
        SubsequenceNoDuplicates(u, o[1..]);
      }
    }
  }

  /** A link to a jobs page carries the marker that makes the inserter skip the text next time. */
  lemma AnchorHasMarker(pre: string, group: string, url: string, post: string)
    requires |url| >= |UrlPrefix| && url[..|UrlPrefix|] == UrlPrefix
    ensures Contains(pre + Anchor(group, url) + post, Marker)
  {
    var a := Anchor(group, url);
    var g := |group|;
    var n := |UrlPrefix|;
    assert a[g + 3..g + 3 + n] == a[g + 3..|a| - 1][..n] == UrlPrefix;
    assert a[g + 1..g + 3 + n] == a[g + 1..g + 3] + a[g + 3..g + 3 + n];
    assert OccursAt(a, Marker, g + 1);
    ContainsInConcat(pre, a, post, Marker);
  }

  /** A cluster's turn that adds a link leaves the marker in the text. */
  lemma ApplyClusterHasMarker(spec: ClusterSpec, text: string)
    requires |spec.url| >= |UrlPrefix| && spec.url[..|UrlPrefix|] == UrlPrefix
    requires ApplyCluster(spec, text).Some?
    ensures Contains(ApplyCluster(spec, text).value, Marker)
  {
    var k := FirstMatching(text, spec.patterns, 0).value;
    var m := Search(text, spec.patterns[k]).value;
    AnchorHasMarker(text[..m.start], m.group, spec.url, text[m.end..]);
  }

  /**
   * The loop keeps its bookkeeping straight: at most three links, one used
   * cluster per link, the new used clusters a subsequence of the order, and a
   * changed text always holds a link.
   */
  lemma {:induction false} RunInvariant(table: Cluster -> ClusterSpec, st: Outcome, order: seq<Cluster>)
    requires LinksInternal(table)
    requires st.linksAdded <= MaxLinks && st.linksAdded == |st.clustersUsed|
    ensures var r := Run(table, st, order);
      && r.linksAdded <= MaxLinks && r.linksAdded == |r.clustersUsed|
      && st.linksAdded <= r.linksAdded
      && |st.clustersUsed| <= |r.clustersUsed| && r.clustersUsed[..|st.clustersUsed|] == st.clustersUsed
      && IsSubsequence(r.clustersUsed[|st.clustersUsed|..], order)
      && (r.linksAdded == st.linksAdded ==> r == st)
      && (r.linksAdded > st.linksAdded ==> Contains(r.text, Marker))
    decreases |order|
  {
    var r := Run(table, st, order);
    var n := |st.clustersUsed|;
    if order == [] || st.linksAdded >= MaxLinks {
      assert r.clustersUsed[n..] == [];
    } else {
      var next := Step(table, st, order[0]);
      RunInvariant(table, next, order[1..]);
      assert r == Run(table, next, order[1..]);
      if ApplyCluster(table(order[0]), st.text).Some? {
        ApplyClusterHasMarker(table(order[0]), st.text);
        assert r.clustersUsed[..n] == st.clustersUsed && IsSubsequence(r.clustersUsed[n..], order) by {
          var tail := r.clustersUsed[n..];
          assert next.clustersUsed == st.clustersUsed + [order[0]];
          assert r.clustersUsed[..n + 1] == next.clustersUsed;
          assert tail[0] == r.clustersUsed[..n + 1][n] == order[0];
          assert r.clustersUsed[..n] == r.clustersUsed[..n + 1][..n];
          assert tail[1..] == r.clustersUsed[n + 1..];
        }
      } else {
        assert next == st;
      }
    }
  }

  /** When no cluster has a match, nothing changes. */
  lemma {:induction false} RunNoMatch(table: Cluster -> ClusterSpec, st: Outcome, order: seq<Cluster>)
    requires forall c :: c in order ==> ApplyCluster(table(c), st.text).None?
    ensures Run(table, st, order) == st
    decreases |order|
  {
    if order != [] && st.linksAdded < MaxLinks {
      RunNoMatch(table, st, order[1..]);
    }
  }

  /** Conversely, a run below the cap that adds nothing found no match in any cluster of the order. */
  lemma {:induction false} RunNothingAdded(table: Cluster -> ClusterSpec, st: Outcome, order: seq<Cluster>)
    requires LinksInternal(table)
    requires st.linksAdded < MaxLinks && st.linksAdded == |st.clustersUsed|
    requires Run(table, st, order).linksAdded == st.linksAdded
    ensures forall c :: c in order ==> ApplyCluster(table(c), st.text).None?
    decreases |order|
  {
    if order != [] {
      if ApplyCluster(table(order[0]), st.text).Some? {
        assert false;
      }
      RunNothingAdded(table, st, order[1..]);
    }
  }

  /** The promises of `add_links_to_description` about its three results. */
  lemma AddLinksBounds(table: Cluster -> ClusterSpec, text: string, role: Option<string>)
    requires LinksInternal(table)
    ensures var r := AddLinksWith(table, text, role);
      && r.linksAdded <= MaxLinks
      && r.linksAdded == |r.clustersUsed|
      && NoDuplicates(r.clustersUsed)
      && IsSubsequence(r.clustersUsed, ClusterOrder(role))
      && (r.linksAdded == 0 ==> r.text == text && r.clustersUsed == [])
      && (r.linksAdded > 0 ==> Contains(r.text, Marker))
  {
    var r := AddLinksWith(table, text, role);
    if text == "" || Contains(text, Marker) {
      assert IsSubsequence(r.clustersUsed, ClusterOrder(role));
    } else {
      RunInvariant(table, Outcome(text, 0, []), ClusterOrder(role));
      assert r.clustersUsed[0..] == r.clustersUsed;
      SubsequenceNoDuplicates(r.clustersUsed, ClusterOrder(role));
    }
  }

  /** With no match in any cluster, the text comes back unchanged with no links. */
  lemma AddLinksNoMatch(table: Cluster -> ClusterSpec, text: string, role: Option<string>)
    requires forall c: Cluster, k :: 0 <= k < |table(c).patterns| ==> Search(text, table(c).patterns[k]).None?
    ensures AddLinksWith(table, text, role) == Outcome(text, 0, [])
  {
    if text != "" && !Contains(text, Marker) {
      RunNoMatch(table, Outcome(text, 0, []), ClusterOrder(role));
    }
  }

  /**
   * Running the inserter on its own output changes nothing, whatever role is
   * given the second time: a linked text carries the marker, and an unlinked one
   * matched no pattern of any cluster.
   */
  lemma AddLinksIdempotent(table: Cluster -> ClusterSpec, text: string, role: Option<string>, role2: Option<string>)
    requires LinksInternal(table)
    ensures var r := AddLinksWith(table, text, role);
      AddLinksWith(table, r.text, role2) == Outcome(r.text, 0, [])
  {
    var r := AddLinksWith(table, text, role);
    AddLinksBounds(table, text, role);
    if r.linksAdded == 0 && text != "" && !Contains(text, Marker) {
      var st := Outcome(text, 0, []);
      var first := ClusterOrder(role);
      RunNothingAdded(table, st, first);
      forall c | c in ClusterOrder(role2) ensures ApplyCluster(table(c), text).None? {
        InEveryOrder(c, first);
      }
      RunNoMatch(table, st, ClusterOrder(role2));
    }
  }

  /** The same for the inserter with `KEYWORD_CLUSTERS`. */
  lemma AddLinksIsIdempotent(text: string, role: Option<string>, role2: Option<string>)
    ensures var r := AddLinks(text, role);
      AddLinks(r.text, role2) == Outcome(r.text, 0, [])
  {
    KeywordClustersLinkInternal();
    AddLinksIdempotent(KeywordClusters, text, role, role2);
  }

  // ---------------------------------------------------------------- the loop as written

  /** `add_links_to_description`, loop by loop, over a cluster table. */
  method AddLinksToDescriptionWith(table: Cluster -> ClusterSpec, text: string, role: Option<string>)
    returns (result: string, linksAdded: nat, clustersUsed: seq<Cluster>)
    requires LinksInternal(table)
    ensures Outcome(result, linksAdded, clustersUsed) == AddLinksWith(table, text, role)
    ensures linksAdded <= MaxLinks && linksAdded == |clustersUsed| && NoDuplicates(clustersUsed)
    ensures linksAdded == 0 ==> result == text
  {
    if text == "" || Contains(text, Marker) {
      AddLinksBounds(table, text, role);
      return text, 0, [];
    }
    var order := ComputeClusterOrder(role);
    result, linksAdded, clustersUsed := ApplyClusters(table, text, order);
    AddLinksBounds(table, text, role);
  }

  /** The outer loop: one turn per cluster of `order`, stopping once three links are in. */
  method ApplyClusters(table: Cluster -> ClusterSpec, text: string, order: seq<Cluster>)
    returns (result: string, linksAdded: nat, clustersUsed: seq<Cluster>)
    ensures Outcome(result, linksAdded, clustersUsed) == Run(table, Outcome(text, 0, []), order)
  {
    result, linksAdded, clustersUsed := text, 0, [];
    ghost var goal := Run(table, Outcome(text, 0, []), order);
    var i := 0;
    while i < |order|
      invariant 0 <= i <= |order|
      invariant Run(table, Outcome(result, linksAdded, clustersUsed), order[i..]) == goal
    {
      if linksAdded >= MaxLinks {
        break;
      }
      var c := order[i];
      ghost var before := Outcome(result, linksAdded, clustersUsed);
      var linked;
      result, linked := TryPatterns(table(c), result);
      if linked {
        clustersUsed := clustersUsed + [c];
        linksAdded := linksAdded + 1;
      }
      StepOutcome(table, before, c, result, linked);
      RunTurn(table, before, order[i..], Outcome(result, linksAdded, clustersUsed));
      assert order[i..][1..] == order[i + 1..];
      i := i + 1;
    }
  }

  /** The inner loop: try each pattern of one cluster until one matches, and link it. */
  method TryPatterns(spec: ClusterSpec, text: string) returns (result: string, linked: bool)
    ensures linked ==> ApplyCluster(spec, text) == Some(result)
    ensures !linked ==> ApplyCluster(spec, text) == None && result == text
  {
    result := text;
    linked := false;
    var k := 0;
    while k < |spec.patterns|
      invariant 0 <= k <= |spec.patterns|
      invariant FirstMatching(text, spec.patterns, k) == FirstMatching(text, spec.patterns, 0)
    {
      var m := Search(text, spec.patterns[k]);
      if m.Some? {
        result := SubFirst(text, spec.patterns[k], spec.url);
        linked := true;
        return;
      }
      k := k + 1;
    }
  }

  /** `add_links_to_description` with `KEYWORD_CLUSTERS`. */
  method AddLinksToDescription(text: string, role: Option<string>)
    returns (result: string, linksAdded: nat, clustersUsed: seq<Cluster>)
    ensures Outcome(result, linksAdded, clustersUsed) == AddLinks(text, role)
    ensures linksAdded <= MaxLinks && linksAdded == |clustersUsed| && NoDuplicates(clustersUsed)
    ensures linksAdded == 0 ==> result == text
  {
    KeywordClustersLinkInternal();
    result, linksAdded, clustersUsed := AddLinksToDescriptionWith(KeywordClusters, text, role);
  }
}
