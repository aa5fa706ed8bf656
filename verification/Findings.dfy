/** Approvals, findings and their identity, shared by the agent (`models.py`) and the backend
    (`approval_finding.rs`). */
module Findings {
  import opened Common
  import opened StableSort

  datatype RiskTier = Safe | Watch | Dangerous

  datatype RevocationStatus = NotAttempted | Pending | Simulated | Revoked | Failed

  /** A provider's JSON value, as far as the risk flags look at it. */
  datatype Json = Null | Bool(b: bool) | Int(i: int) | Str(s: string) | Other

  type Raw = map<string, Json>

  datatype ApprovalFinding = ApprovalFinding(
    chainId: string, tokenAddress: string, tokenSymbol: string, spenderAddress: string,
    spenderName: Option<string>, approvedAmount: string, tier: RiskTier,
    maliciousBehavior: seq<string>, explanation: Option<string>, isNew: bool,
    revocationStatus: RevocationStatus, revocationTxHash: Option<string>, raw: Raw)
  {
    function Key(): string { ApprovalKey(chainId, tokenAddress, spenderAddress) }
  }

  datatype StepKind = Scan | Finish | Revoke | Report | Degraded

  /** One journal line. */
  datatype AgentStep = AgentStep(seqNo: int, kind: StepKind, detail: string, reason: string, newHits: int)

  /** The identity both sides compute: chain, token and spender, lower-cased. */
  function ApprovalKey(chain: string, token: string, spender: string): string
  {
    Lower(chain + ":" + token + ":" + spender)
  }

  function KeysOf(findings: seq<ApprovalFinding>): seq<string>
  {
    if findings == [] then [] else KeysOf(findings[..|findings| - 1]) + [findings[|findings| - 1].Key()]
  }

  lemma KeysOfNext(found: seq<ApprovalFinding>, j: nat)
    requires j < |found|
    ensures KeysOf(found[..j + 1]) == KeysOf(found[..j]) + [found[j].Key()]
  {
    assert found[..j + 1][..j] == found[..j];
  }

  function TierRank(tier: RiskTier): int
  {
    match tier
    case Dangerous => 0
    case Watch => 1
    case Safe => 2
  }

  function Rank(f: ApprovalFinding): int { TierRank(f.tier) }

  /** Most dangerous first. */
  function SortByRisk(findings: seq<ApprovalFinding>): seq<ApprovalFinding>
  {
    SortBy(Rank, findings)
  }

  /** The backend's sort of a slice, in place. */
  method SortInPlace(findings: array<ApprovalFinding>)
    modifies findings
    ensures findings[..] == SortByRisk(old(findings[..]))
  {
    var sorted := SortByRisk(findings[..]);
    SortKeepsLength(findings[..]);
    forall i | 0 <= i < findings.Length {
      findings[i] := sorted[i];
    }
  }

  lemma SortKeepsLength(findings: seq<ApprovalFinding>)
    ensures |SortByRisk(findings)| == |findings|
  {
    SortByIsStable(Rank, findings);
    assert |multiset(SortByRisk(findings))| == |multiset(findings)|;
  }

  lemma KeysOfSnoc(findings: seq<ApprovalFinding>, f: ApprovalFinding)
    ensures KeysOf(findings + [f]) == KeysOf(findings) + [f.Key()]
  {
    assert (findings + [f])[..|findings|] == findings;
  }

  lemma {:induction false} InsertKeepsKeys(findings: seq<ApprovalFinding>, f: ApprovalFinding)
    ensures multiset(KeysOf(InsertBy(Rank, findings, f))) == multiset(KeysOf(findings)) + multiset{f.Key()}
  {
    if findings == [] || Rank(findings[|findings| - 1]) <= Rank(f) {
      KeysOfSnoc(findings, f);
    } else {
      var init, last := findings[..|findings| - 1], findings[|findings| - 1];
      InsertKeepsKeys(init, f);
      KeysOfSnoc(InsertBy(Rank, init, f), last);
    }
  }

  /** Sorting reorders the keys and loses none. */
  lemma {:induction false} SortKeepsKeys(findings: seq<ApprovalFinding>)
    ensures multiset(KeysOf(SortByRisk(findings))) == multiset(KeysOf(findings))
  {
    if findings != [] {
      var init, last := findings[..|findings| - 1], findings[|findings| - 1];
      SortKeepsKeys(init);
      InsertKeepsKeys(SortByRisk(init), last);
    }
  }

  // ---------------------------------------------------------------- the key identifies the approval

  lemma FirstColonSplits(a: string, b: string, a': string, b': string)
    requires ':' !in a && ':' !in a' && a + ":" + b == a' + ":" + b'
    ensures a == a' && b == b'
  {
    var s := a + ":" + b;
    assert s[|a|] == ':' && s[|a'|] == ':';
    assert forall i :: 0 <= i < |a| ==> s[i] == a[i] && a[i] in a;
    assert forall i :: 0 <= i < |a'| ==> s[i] == a'[i] && a'[i] in a';
    assert |a| == |a'|;
    assert a == s[..|a|] && a' == s[..|a'|];
    assert b == s[|a| + 1..] && b' == s[|a'| + 1..];
  }

  lemma KeyParts(c: string, t: string, s: string)
    ensures ApprovalKey(c, t, s) == Lower(c) + ":" + (Lower(t) + ":" + Lower(s))
  {
    calc {
      c + ":" + t + ":" + s;
      (c + ":") + t + ":" + s;
      { ConcatAssociative(c + ":", t, ":"); ConcatAssociative(c + ":", t + ":", s); }
      c + ":" + (t + ":" + s);
    }
  }

  /** For colon-free components the key is equal exactly when all three agree up to ASCII case. */
  lemma KeyIdentifiesApproval(c: string, t: string, s: string, c': string, t': string, s': string)
    requires ':' !in c && ':' !in t && ':' !in c' && ':' !in t'
    ensures ApprovalKey(c, t, s) == ApprovalKey(c', t', s')
            <==> Lower(c) == Lower(c') && Lower(t) == Lower(t') && Lower(s) == Lower(s')
  {
    KeyParts(c, t, s);
    KeyParts(c', t', s');
    PartsIdentify(Lower(c), Lower(t), Lower(s), Lower(c'), Lower(t'), Lower(s'));
  }

  lemma PartsIdentify(c: string, t: string, s: string, c': string, t': string, s': string)
    requires ':' !in c && ':' !in t && ':' !in c' && ':' !in t'
    ensures c + ":" + (t + ":" + s) == c' + ":" + (t' + ":" + s') <==> c == c' && t == t' && s == s'
  {
    if c + ":" + (t + ":" + s) == c' + ":" + (t' + ":" + s') {
      FirstColonSplits(c, t + ":" + s, c', t' + ":" + s');
      FirstColonSplits(t, s, t', s');
    }
  }

  /** With a colon inside a component two different approvals share a key. */
  lemma ColonsCollide()
    ensures ApprovalKey("a:b", "c", "d") == ApprovalKey("a", "b:c", "d")
    ensures "a:b" != "a"
  {
    assert "a:b" + ":" + "c" + ":" + "d" == "a" + ":" + "b:c" + ":" + "d";
    assert |"a:b"| != |"a"|;
  }
}
