/**
 Work order drafts: what the trusted registry and the deny-by-default policy accept.
 */
module Drafts {
  import opened Options
  import opened Tables

  /** A trusted manifest: its stored identity and the parameters it allows. */
  datatype Manifest = Manifest(identity: string, parameters: set<string>)

  /** The version-controlled registry; manifests are keyed by name and version. */
  datatype Registry = Registry(
    repositories: set<string>,
    manifests: map<string, Manifest>,
    allowed: set<(string, string)>)

  /** `writeCapability` tells whether the draft asks for anything but a refused write. */
  datatype Draft = Draft(
    schemaVersion: int,
    repository: string,
    commit: string,
    manifest: string,
    parameters: set<string>,
    repositoryWrite: bool,
    writeCapability: bool,
    terms: Terms)

  predicate IsHex(c: char) {
    '0' <= c <= '9' || 'a' <= c <= 'f' || 'A' <= c <= 'F'
  }

  predicate IsCommit(s: string) {
    |s| == 40 && forall i :: 0 <= i < |s| ==> IsHex(s[i])
  }

  /** Forty hexadecimal digits in either case. */
  lemma CommitsAreHex(s: string)
    ensures IsCommit(s) <==> |s| == 40 && forall i :: 0 <= i < |s| ==> s[i] in "0123456789abcdefABCDEF"
  {
    forall i | 0 <= i < |s|
      ensures IsHex(s[i]) <==> s[i] in "0123456789abcdefABCDEF"
    {
      HexDigits(s[i]);
    }
  }

  lemma HexDigits(c: char)
    ensures IsHex(c) <==> c in "0123456789abcdefABCDEF"
  {
    var digits := "0123456789abcdefABCDEF";
    if '0' <= c <= '9' {
      assert digits[c as int - '0' as int] == c;
    } else if 'a' <= c <= 'f' {
      assert digits[10 + c as int - 'a' as int] == c;
    } else if 'A' <= c <= 'F' {
      assert digits[16 + c as int - 'A' as int] == c;
    }
  }

  function LowerHex(c: char): char {
    match c
    case 'A' => 'a' case 'B' => 'b' case 'C' => 'c' case 'D' => 'd' case 'E' => 'e' case 'F' => 'f'
    case _ => c
  }

  function Lower(s: string): (r: string)
    ensures |r| == |s| && forall i :: 0 <= i < |s| ==> r[i] == LowerHex(s[i])
  {
    seq(|s|, i requires 0 <= i < |s| => LowerHex(s[i]))
  }

  /** A commit is stored as the one lower-case spelling of what was asked for. */
  lemma StoredCommitIsCanonical(s: string, t: string)
    requires IsCommit(s)
    ensures IsCommit(Lower(s)) && Lower(Lower(s)) == Lower(s)
    ensures forall i :: 0 <= i < |s| ==>
              && !('A' <= Lower(s)[i] <= 'F')
              && (if 'A' <= s[i] <= 'F' then Lower(s)[i] as int == s[i] as int + 32 else Lower(s)[i] == s[i])
    ensures Lower(s) == Lower(t) <==> |t| == |s| && forall i :: 0 <= i < |s| ==> LowerHex(s[i]) == LowerHex(t[i])
  {
    if |t| == |s| && forall i :: 0 <= i < |s| ==> LowerHex(s[i]) == LowerHex(t[i]) {
      assert Lower(s) == Lower(t);
    }
    assert forall i :: 0 <= i < |s| && Lower(s) == Lower(t) ==> Lower(s)[i] == Lower(t)[i];
  }

  predicate InBounds(terms: Terms) {
    && terms.requiredQuota <= MAX_ROUTING_INTEGER
    && (terms.maximumCost.Some? ==> 0 <= terms.maximumCost.value <= MAX_ROUTING_INTEGER)
  }

  /** The terms stored for an accepted draft. */
  function StoredTerms(registry: Registry, d: Draft): Terms
    requires d.manifest in registry.manifests
  {
    d.terms.(subject := Subject(d.repository, Lower(d.commit), registry.manifests[d.manifest].identity))
  }
}
