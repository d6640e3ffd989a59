/** Findings and how they are ranked (pkg/model/finding.go, pkg/model/severity.go, pkg/scanner/dedup.go). */
module Findings {
  import opened Prelude

  /** The part of the evidence that verification sets; `rest` is everything else. */
  datatype Evidence = Evidence(
    verificationPayload: string, verificationError: string, dialogMessage: string, interaction: string, rest: string)

  datatype Finding = Finding(
    id: string, kind: string, severity: string, confidence: real, url: string, parameter: string, paramType: string,
    reflectionPath: string, payload: string, payloads: seq<string>, contexts: seq<string>, evidence: Evidence,
    verified: bool, executionConfidence: real, screenshot: string)

  /** Library decisions about strings: URL normalization, classes of contexts and payloads, and supported payloads. */
  datatype Library = Library(
    normalize: string -> string, contextClass: seq<string> -> string, vectorClass: string -> string,
    exploitClass: string -> string, supported: string -> bool)

  function Score(severity: string): nat {
    if severity == "critical" then 5
    else if severity == "high" then 4
    else if severity == "medium" then 3
    else if severity == "low" then 2
    else if severity == "info" then 1
    else 0
  }

  /** The severities, the worst one first; any other text is unrated. */
  const RATINGS: seq<string> := ["critical", "high", "medium", "low", "info"]

  /** A severity scores by its place among the ratings. */
  lemma ScoresFollowTheRatings(a: string, b: string)
    ensures Score(a) > Score(b) <==>
              exists i :: 0 <= i < |RATINGS| && RATINGS[i] == a && forall j :: 0 <= j <= i ==> RATINGS[j] != b
    ensures Score(a) == 0 <==> a !in RATINGS
    ensures Score(a) == Score(b) > 0 ==> a == b
  {
    assert RATINGS[0] == "critical" && RATINGS[1] == "high" && RATINGS[2] == "medium" && RATINGS[3] == "low"
        && RATINGS[4] == "info";
  }

  /** Should `candidate` replace `current` as the representative of a group? */
  predicate Better(current: Finding, candidate: Finding) {
    if candidate.verified != current.verified then candidate.verified
    else if candidate.confidence != current.confidence then candidate.confidence > current.confidence
    else candidate.verified && !current.verified
  }

  /** Proof first, then confidence; equal findings never replace each other. */
  lemma BetterIsAWeakOrder(a: Finding, b: Finding, c: Finding)
    ensures !Better(a, a)
    ensures Better(a, b) && Better(b, c) ==> Better(a, c)
    ensures !Better(a, b) && !Better(b, c) ==> !Better(a, c)
    ensures Better(a, b) <==> (b.verified && !a.verified) || (b.verified == a.verified && b.confidence > a.confidence)
  {
  }

  /** The places listed are those of findings, in order. */
  ghost predicate Places(findings: seq<Finding>, group: seq<nat>) {
    && (forall m :: 0 <= m < |group| ==> group[m] < |findings|)
    && (forall m, n :: 0 <= m < n < |group| ==> group[m] < group[n])
  }

  /** `i` is the earliest of the best findings of a group: better than all before it, and none after is better. */
  ghost predicate IsBest(findings: seq<Finding>, group: seq<nat>, i: nat)
    requires Places(findings, group)
  {
    && i in group && i < |findings|
    && forall m :: 0 <= m < |group| ==>
         if group[m] < i then Better(findings[group[m]], findings[i]) else !Better(findings[i], findings[group[m]])
  }

  /** Only one finding of a group is the earliest best. */
  lemma BestIsUnique(findings: seq<Finding>, group: seq<nat>, i: nat, j: nat)
    requires Places(findings, group) && IsBest(findings, group, i) && IsBest(findings, group, j)
    ensures i == j
  {
    var m :| 0 <= m < |group| && group[m] == i;
    var n :| 0 <= n < |group| && group[n] == j;
  }

  lemma PlacesNext(findings: seq<Finding>, group: seq<nat>, n: nat)
    requires Places(findings, group) && n < |findings| && forall m :: 0 <= m < |group| ==> group[m] < n
    ensures Places(findings, group + [n])
  {
  }

  /** A later finding replaces the best one exactly when it is better. */
  lemma BestNext(findings: seq<Finding>, group: seq<nat>, i: nat, n: nat)
    requires Places(findings, group) && n < |findings| && forall m :: 0 <= m < |group| ==> group[m] < n
    requires IsBest(findings, group, i)
    ensures Places(findings, group + [n])
    ensures IsBest(findings, group + [n], if Better(findings[i], findings[n]) then n else i)
  {
    hide Better;
    PlacesNext(findings, group, n);
    var all := group + [n];
    assert n in all && i in all;
    assert i < n by {
      var m :| 0 <= m < |group| && group[m] == i;
    }
    BetterIsAWeakOrder(findings[n], findings[n], findings[n]);
    forall m | 0 <= m < |group|
      ensures Better(findings[i], findings[n]) ==> Better(findings[group[m]], findings[n])
    {
      BetterIsAWeakOrder(findings[group[m]], findings[i], findings[n]);
      BetterIsAWeakOrder(findings[i], findings[group[m]], findings[n]);
    }
  }

  lemma BestOfOne(findings: seq<Finding>, n: nat)
    requires n < |findings|
    ensures Places(findings, [n]) && IsBest(findings, [n], n)
  {
  }
}
