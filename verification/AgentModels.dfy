/** `models.py` and `resolve_approvals`: raw approvals, provider flags, the risk rule, dedup, the gate. */
module AgentModels {
  import opened Common
  import opened Findings

  datatype RawApproval = RawApproval(
    chainId: string, tokenAddress: string, tokenSymbol: string, spenderAddress: string, approvedAmount: string,
    approvedAt: Option<int>, approvalTxHash: Option<string>, spenderName: Option<string>, raw: Raw)
  {
    function Key(): string { ApprovalKey(chainId, tokenAddress, spenderAddress) }
  }

  datatype Assessment = Assessment(tier: RiskTier, maliciousBehavior: seq<string>, explanation: Option<string>)

  /** What a policy answers; the last one is a raised exception. */
  datatype Action =
    | ScanAction(chainId: string, reason: string)
    | FinishAction(reason: string)
    | AskAction(question: string, reason: string)
    | RaisedAction(message: string)

  // ---------------------------------------------------------------- provider flags and the tier

  /** What Python's `strip` removes: White_Space and the four separators before it. */
  predicate IsPySpace(c: char) { IsWhiteSpace(c) || '\U{001C}' <= c <= '\U{001F}' }

  const TRUE_FLAGS: set<string> := {"1", "true", "yes"}
  const FALSE_FLAGS: set<string> := {"0", "false", "no", ""}

  /** A strict three-way reading; a missing, null or unknown value is neither true nor false. */
  function FlagState(value: Option<Json>): Option<bool>
  {
    match value
    case Some(Bool(b)) => Some(b)
    case Some(Int(i)) => Some(i != 0)
    case Some(Str(s)) =>
      var text := Lower(Trim(s, IsPySpace));
      if text in TRUE_FLAGS then Some(true) else if text in FALSE_FLAGS then Some(false) else None
    case _ => None
  }

  function Get(raw: Raw, key: string): Option<Json>
  {
    if key in raw then Some(raw[key]) else None
  }

  function ClassifyRisk(raw: Raw): RiskTier
  {
    var trusted := FlagState(Get(raw, "trust_list")) == Some(true);
    if FlagState(Get(raw, "malicious_address")) == Some(true) then (if trusted then Watch else Dangerous)
    else if FlagState(Get(raw, "is_open_source")) != Some(true) then Watch
    else Safe
  }

  /** An unreadable signal errs on the side of doing nothing: it leaves the approval below
      dangerous if it was the malicious flag and below safe if it was the source flag, and a trusted
      spender is never dangerous, whatever the other signals are. */
  lemma UnknownSignalsAreCautious(raw: Raw, value: Json)
    requires FlagState(Some(value)) == None
    ensures ClassifyRisk(raw["malicious_address" := value]) != Dangerous
    ensures ClassifyRisk(raw - {"malicious_address"}) != Dangerous
    ensures ClassifyRisk(raw["is_open_source" := value]) != Safe
    ensures ClassifyRisk(raw["trust_list" := Bool(true)]) != Dangerous
    ensures ClassifyRisk(raw["trust_list" := value]) == ClassifyRisk(raw - {"trust_list"})
  {
    DistinctFlagNames();
  }

  lemma DistinctFlagNames()
    ensures "malicious_address" != "is_open_source" && "trust_list" != "malicious_address"
    ensures "trust_list" != "is_open_source"
  {
    assert |"trust_list"| == 10 && |"is_open_source"| == 14 && |"malicious_address"| == 17;
  }

  /** A text flag reads the same in any case and with any surrounding space. */
  lemma FlagTextIsCanonical(s: string)
    ensures FlagState(Some(Str(Lower(s)))) == FlagState(Some(Str(s))) == FlagState(Some(Str(Trim(s, IsPySpace))))
  {
    LowerTrims(s, IsPySpace);
    LowerTwice(Trim(s, IsPySpace));
    TrimIdempotent(s, IsPySpace);
  }

  // ---------------------------------------------------------------- dedup

  function RawKeys(approvals: seq<RawApproval>): (keys: seq<string>)
    ensures |keys| == |approvals|
  {
    seq(|approvals|, i requires 0 <= i < |approvals| => approvals[i].Key())
  }

  function Deduped(approvals: seq<RawApproval>): seq<RawApproval>
  {
    if approvals == [] then []
    else
      var kept := Deduped(approvals[..|approvals| - 1]);
      var last := approvals[|approvals| - 1];
      if last.Key() in RawKeys(kept) then kept else kept + [last]
  }

  method DedupeApprovals(approvals: seq<RawApproval>) returns (kept: seq<RawApproval>)
    ensures kept == Deduped(approvals)
  {
    var seen: set<string> := {};
    kept := [];
    for i := 0 to |approvals|
      invariant kept == Deduped(approvals[..i])
      invariant forall k :: k in seen <==> k in RawKeys(kept)
    {
      assert approvals[..i + 1][..i] == approvals[..i];
      var key := approvals[i].Key();
      if key !in seen {
        RawKeysSnoc(kept, approvals[i]);
        seen := seen + {key};
        kept := kept + [approvals[i]];
      }
    }
    assert approvals[..|approvals|] == approvals;
  }

  lemma RawKeysSnoc(approvals: seq<RawApproval>, a: RawApproval)
    ensures RawKeys(approvals + [a]) == RawKeys(approvals) + [a.Key()]
  {
  }

  ghost predicate FirstOfItsKey(approvals: seq<RawApproval>, i: nat)
  {
    i < |approvals| && forall j :: 0 <= j < i ==> approvals[j].Key() != approvals[i].Key()
  }

  /** Every key survives exactly once, in the order of first appearance, and what survives is the
      first approval with that key. */
  lemma {:induction false} DedupKeepsFirst(approvals: seq<RawApproval>)
    ensures RawKeys(Deduped(approvals)) == FirstOccurrences(RawKeys(approvals))
    ensures Distinct(RawKeys(Deduped(approvals)))
    ensures forall a :: a in Deduped(approvals) <==> exists i: nat :: FirstOfItsKey(approvals, i) && approvals[i] == a
  {
    FirstOccurrencesElements(RawKeys(approvals));
    if approvals != [] {
      var init, last := approvals[..|approvals| - 1], approvals[|approvals| - 1];
      DedupKeepsFirst(init);
      assert approvals == init + [last];
      RawKeysSnoc(init, last);
      RawKeysSnoc(Deduped(init), last);
      FirstOccurrencesElements(RawKeys(init));
      NextFirst(init, last);
    }
  }

  lemma NextFirst(init: seq<RawApproval>, last: RawApproval)
    ensures forall i :: 0 <= i < |init| ==> (FirstOfItsKey(init + [last], i) <==> FirstOfItsKey(init, i))
    ensures FirstOfItsKey(init + [last], |init|) <==> last.Key() !in RawKeys(init)
  {
    var all, n := init + [last], |init|;
    assert forall j :: 0 <= j < n ==> all[j] == init[j] && RawKeys(init)[j] == init[j].Key();
    assert all[n] == last;
    if FirstOfItsKey(all, n) {
      assert forall j :: 0 <= j < n ==> all[j].Key() != last.Key();
    }
  }

  /** What the agent keeps of one fetch: everything whose key no earlier fetch brought. */
  function Unseen(found: seq<RawApproval>, collected: set<string>): seq<RawApproval>
  {
    if found == [] then []
    else Unseen(found[..|found| - 1], collected)
         + if found[|found| - 1].Key() in collected then [] else [found[|found| - 1]]
  }

  function KeySet(approvals: seq<RawApproval>): set<string>
  {
    set a | a in approvals :: a.Key()
  }

  lemma KeysAreKeySet(approvals: seq<RawApproval>)
    ensures (set key | key in RawKeys(approvals)) == KeySet(approvals)
  {
    forall key | key in KeySet(approvals) ensures key in RawKeys(approvals) {
      var i :| 0 <= i < |approvals| && approvals[i].Key() == key;
      assert RawKeys(approvals)[i] == key;
    }
    forall key | key in RawKeys(approvals) ensures key in KeySet(approvals) {
      var i :| 0 <= i < |approvals| && RawKeys(approvals)[i] == key;
      assert approvals[i] in approvals;
    }
  }

  lemma {:induction false} UnseenIsNew(found: seq<RawApproval>, collected: set<string>)
    ensures forall a :: a in Unseen(found, collected) <==> a in found && a.Key() !in collected
  {
    if found != [] {
      UnseenIsNew(found[..|found| - 1], collected);
      assert found == found[..|found| - 1] + [found[|found| - 1]];
    }
  }

  lemma UnseenOnlyFound(found: seq<RawApproval>, collected: set<string>, key: string)
    ensures key in RawKeys(Unseen(found, collected)) ==> key in RawKeys(found)
  {
    UnseenIsNew(found, collected);
    if key in RawKeys(Unseen(found, collected)) {
      var i :| 0 <= i < |Unseen(found, collected)| && Unseen(found, collected)[i].Key() == key;
      var j :| 0 <= j < |found| && found[j] == Unseen(found, collected)[i];
      assert RawKeys(found)[j] == key;
    }
  }

  lemma {:induction false} UnseenDistinct(found: seq<RawApproval>, collected: set<string>)
    requires Distinct(RawKeys(found))
    ensures Distinct(RawKeys(Unseen(found, collected)))
  {
    if found != [] {
      var init, last := found[..|found| - 1], found[|found| - 1];
      assert found == init + [last];
      RawKeysSnoc(init, last);
      DistinctSnoc(RawKeys(init), last.Key());
      UnseenDistinct(init, collected);
      UnseenOnlyFound(init, collected, last.Key());
      var kept := Unseen(init, collected);
      RawKeysSnoc(kept, last);
      DistinctSnoc(RawKeys(kept), last.Key());
      assert Unseen(found, collected) == kept || Unseen(found, collected) == kept + [last];
    }
  }

  // ---------------------------------------------------------------- findings

  function FindingOf(a: RawApproval, s: Assessment): ApprovalFinding
  {
    ApprovalFinding(a.chainId, a.tokenAddress, a.tokenSymbol, a.spenderAddress, a.spenderName, a.approvedAmount,
                    s.tier, s.maliciousBehavior, s.explanation, true, NotAttempted, None, a.raw)
  }

  /** The finding shows the approval. */
  predicate Describes(f: ApprovalFinding, a: RawApproval)
  {
    && f.chainId == a.chainId && f.tokenAddress == a.tokenAddress && f.tokenSymbol == a.tokenSymbol
    && f.spenderAddress == a.spenderAddress && f.spenderName == a.spenderName
    && f.approvedAmount == a.approvedAmount && f.raw == a.raw
  }

  /** And the assessment; nothing has been revoked yet. */
  predicate Assesses(f: ApprovalFinding, s: Assessment)
  {
    && f.tier == s.tier && f.maliciousBehavior == s.maliciousBehavior && f.explanation == s.explanation
    && f.revocationStatus == NotAttempted && f.revocationTxHash.None?
  }

  /** One finding per approval; a threat-intel answer of another length is an error. */
  function Resolve(approvals: seq<RawApproval>, assessments: seq<Assessment>): Result<seq<ApprovalFinding>, string>
  {
    if |approvals| != |assessments| then Err("zip() argument lengths differ")
    else Ok(seq(|approvals|, i requires 0 <= i < |approvals| => FindingOf(approvals[i], assessments[i])))
  }

  function FlagNew(findings: seq<ApprovalFinding>, seen: set<string>): (flagged: seq<ApprovalFinding>)
    ensures |flagged| == |findings|
  {
    seq(|findings|, i requires 0 <= i < |findings| => findings[i].(isNew := findings[i].Key() !in seen))
  }

  predicate IsDangerous(f: ApprovalFinding) { f.tier == Dangerous }

  /** The execution gate. */
  function ToRevoke(findings: seq<ApprovalFinding>): seq<ApprovalFinding>
  {
    Filter(IsDangerous, findings)
  }

  /** The findings of a deterministic assessment, before sorting. */
  lemma ResolveKeepsKeys(approvals: seq<RawApproval>, assessments: seq<Assessment>)
    requires |approvals| == |assessments|
    ensures KeysOf(Resolve(approvals, assessments).value) == RawKeys(approvals)
  {
    KeysOfPointwise(Resolve(approvals, assessments).value);
  }

  lemma {:induction false} KeysOfPointwise(findings: seq<ApprovalFinding>)
    ensures |KeysOf(findings)| == |findings|
    ensures forall i :: 0 <= i < |findings| ==> KeysOf(findings)[i] == findings[i].Key()
  {
    if findings != [] {
      KeysOfPointwise(findings[..|findings| - 1]);
    }
  }
}
