/** The decision logic of `keeperhub.py` over whatever the service answers. */
module KeeperHub {
  import opened Common
  import opened Findings
  import opened Usage

  /** A reply field as a condition reads it; null, false, zero and the empty text are all falsy. */
  datatype Field = Absent | Falsy | Truthy

  /** The reply to the execution request; an absent text is empty. */
  datatype PostReply = PostReply(status: string, success: Field, wouldRevert: Field, executionId: string)

  datatype PollReply = PollReply(status: string, transactionHash: Option<string>)

  /** What one revocation meets: the reply to the request, and the status replies that arrive before
      the deadline. An error is a raised exception. */
  datatype Replies = Replies(post: Result<PostReply, string>, polls: seq<Result<PollReply, string>>)

  const TERMINAL_STATUSES: set<string> := {"completed", "failed"}

  function Normalised(wallet: Option<string>): Option<string>
  {
    if wallet.Some? && wallet.value != "" then Some(Lower(wallet.value)) else None
  }

  /** The first terminal status; running out of replies is a failure. */
  function Polled(polls: seq<Result<PollReply, string>>): Result<PollReply, string>
  {
    if polls == [] then Ok(PollReply("failed", None))
    else if polls[0].Err? then Err(polls[0].error)
    else if polls[0].value.status in TERMINAL_STATUSES then polls[0]
    else Polled(polls[1..])
  }

  function Executed(finding: ApprovalFinding, replies: Replies): Result<ApprovalFinding, string>
  {
    match replies.post
    case Err(e) => Err(e)
    case Ok(reply) =>
      if reply.status == "simulated" then
        Ok(finding.(revocationStatus :=
          if reply.success == Truthy && reply.wouldRevert == Falsy then Simulated else Failed))
      else if reply.executionId == "" then Ok(finding.(revocationStatus := Failed))
      else match Polled(replies.polls)
        case Err(e) => Err(e)
        case Ok(end) =>
          if end.status == "completed" && end.transactionHash.Some? && end.transactionHash.value != "" then
            Ok(finding.(revocationStatus := Revoked, revocationTxHash := end.transactionHash))
          else Ok(finding.(revocationStatus := Failed))
  }

  /** What a revocation answers, given the wallet the key executes as. */
  function Verdict(delegated: Option<string>, walletAddress: string, finding: ApprovalFinding, replies: Replies)
    : Result<ApprovalFinding, string>
  {
    if delegated != Some(Lower(walletAddress)) then Ok(finding.(revocationStatus := NotAttempted))
    else Executed(finding, replies)
  }

  class KeeperHubApprovalRevoker {
    const meter: UsageMeter?
    var wallet: Option<string>
    var walletChecked: bool

    constructor (usage: UsageMeter?)
      ensures wallet == None && !walletChecked && meter == usage
    {
      meter := usage;
      wallet, walletChecked := None, false;
    }

    /** Asked once per revoker; `user` is what the service would answer now. */
    method DelegatedWallet(user: Option<string>) returns (delegated: Option<string>)
      modifies this
      ensures walletChecked && delegated == wallet
      ensures wallet == if old(walletChecked) then old(wallet) else Normalised(user)
    {
      if !walletChecked {
        walletChecked := true;
        wallet := Normalised(user);
      }
      return wallet;
    }

    /** Refused before anything is asked or metered if the key executes as another wallet. */
    method Revoke(finding: ApprovalFinding, walletAddress: string, user: Option<string>, replies: Replies)
      returns (r: Result<ApprovalFinding, string>)
      modifies this, meter
      ensures walletChecked
      ensures wallet == if old(walletChecked) then old(wallet) else Normalised(user)
      ensures r == Verdict(wallet, walletAddress, finding, replies)
      ensures meter != null ==>
                meter.usage == if wallet == Some(Lower(walletAddress)) then Metered(old(meter.usage), Search)
                else old(meter.usage)
    {
      var delegated := DelegatedWallet(user);
      if delegated.None? || delegated.value != Lower(walletAddress) {
        return Ok(finding.(revocationStatus := NotAttempted));
      }
      if meter != null {
        meter.RecordSearch();
      }
      r := Execute(finding, replies);
    }

    method Execute(finding: ApprovalFinding, replies: Replies) returns (r: Result<ApprovalFinding, string>)
      ensures r == Executed(finding, replies)
    {
      if replies.post.Err? {
        return Err(replies.post.error);
      }
      var reply := replies.post.value;
      if reply.status == "simulated" {
        if reply.success == Truthy && reply.wouldRevert == Falsy {
          return Ok(finding.(revocationStatus := Simulated));
        }
        return Ok(finding.(revocationStatus := Failed));
      }
      if reply.executionId == "" {
        return Ok(finding.(revocationStatus := Failed));
      }
      var end := PollStatus(replies.polls);
      if end.Err? {
        return Err(end.error);
      }
      var tx := end.value.transactionHash;
      if end.value.status == "completed" && tx.Some? && tx.value != "" {
        return Ok(finding.(revocationStatus := Revoked, revocationTxHash := tx));
      }
      r := Ok(finding.(revocationStatus := Failed));
    }
  }

  method PollStatus(polls: seq<Result<PollReply, string>>) returns (end: Result<PollReply, string>)
    ensures end == Polled(polls)
  {
    for i := 0 to |polls|
      invariant Polled(polls[i..]) == Polled(polls)
    {
      assert polls[i..][0] == polls[i] && polls[i..][1..] == polls[i + 1..];
      if polls[i].Err? {
        return Err(polls[i].error);
      }
      if polls[i].value.status in TERMINAL_STATUSES {
        return polls[i];
      }
    }
    end := Ok(PollReply("failed", None));
  }

  predicate Pending(poll: Result<PollReply, string>)
  {
    poll.Ok? && poll.value.status != "completed" && poll.value.status != "failed"
  }

  /** Reply `k` is the first terminal one. */
  ghost predicate EndsAt(polls: seq<Result<PollReply, string>>, k: nat)
  {
    && k < |polls| && polls[k].Ok? && !Pending(polls[k])
    && forall j :: 0 <= j < k ==> Pending(polls[j])
  }

  /** The first reply that is terminal or raises decides; without one the deadline does. */
  lemma {:induction false} FirstSettled(polls: seq<Result<PollReply, string>>) returns (k: nat)
    ensures k <= |polls| && (forall j :: 0 <= j < k ==> Pending(polls[j])) && (k < |polls| ==> !Pending(polls[k]))
    ensures Polled(polls) == if k < |polls| then polls[k] else Ok(PollReply("failed", None))
  {
    if polls == [] || !Pending(polls[0]) {
      k := 0;
    } else {
      var rest := FirstSettled(polls[1..]);
      k := rest + 1;
      assert forall j :: 0 < j < |polls| ==> polls[j] == polls[1..][j - 1];
    }
  }

  /** A reply is answered, with or without a transaction, exactly when it is the first terminal one, or
      when it is the bare failure and nothing but pending replies came before the deadline. */
  lemma PolledIsFirstTerminal(polls: seq<Result<PollReply, string>>, reply: PollReply)
    ensures Polled(polls) == Ok(reply)
            <==> || (exists k: nat :: EndsAt(polls, k) && polls[k].value == reply)
                 || (reply == PollReply("failed", None) && forall j :: 0 <= j < |polls| ==> Pending(polls[j]))
  {
    var k := FirstSettled(polls);
    if k < |polls| && polls[k].Ok? {
      assert EndsAt(polls, k);
    }
    assert forall i: nat :: EndsAt(polls, i) ==> i == k;
  }

  /** Polling raises exactly when a raising reply is the first that is not pending. */
  lemma PolledRaisesIff(polls: seq<Result<PollReply, string>>, error: string)
    ensures Polled(polls) == Err(error)
            <==> exists k: nat :: k < |polls| && polls[k] == Err(error) && forall j :: 0 <= j < k ==> Pending(polls[j])
  {
    var k := FirstSettled(polls);
    if i: nat :| i < |polls| && polls[i] == Err(error) && forall j :: 0 <= j < i ==> Pending(polls[j]) {
      assert i == k;
    }
  }

  /** Revoked is answered exactly when the key executes as the scanned wallet, the request was not
      simulated and got an execution, and its first terminal status was completed with a transaction
      hash; that hash is the one reported. Nothing else of the finding changes. */
  lemma RevokedIff(delegated: Option<string>, walletAddress: string, finding: ApprovalFinding, replies: Replies,
                   tx: string)
    requires tx != ""
    ensures var v := Verdict(delegated, walletAddress, finding, replies);
            (v.Ok? && v.value.revocationStatus == Revoked && v.value.revocationTxHash == Some(tx))
            <==> (&& delegated == Some(Lower(walletAddress))
                  && replies.post.Ok? && replies.post.value.status != "simulated"
                  && replies.post.value.executionId != ""
                  && exists k: nat ::
                       EndsAt(replies.polls, k) && replies.polls[k].value == PollReply("completed", Some(tx)))
  {
    PolledIsFirstTerminal(replies.polls, PollReply("completed", Some(tx)));
  }

  /** The key executes as the scanned wallet exactly when the service names one equal to it up to ASCII case. */
  lemma DelegatedIff(user: Option<string>, walletAddress: string)
    ensures Normalised(user) == Some(Lower(walletAddress))
            <==> && user.Some? && user.value != "" && |user.value| == |walletAddress|
                 && forall i :: 0 <= i < |walletAddress| ==> SameLetter(user.value[i], walletAddress[i])
  {
    if user.Some? {
      LowerIsCaseBlind(user.value, walletAddress);
    }
  }

  /** A dry run that went well: `wouldRevert` has to be there and falsy. */
  predicate DryRunPassed(reply: PostReply)
  {
    reply.status == "simulated" && reply.success == Truthy && reply.wouldRevert == Falsy
  }

  /** Simulated is answered for a passed dry run and for nothing else; no dry run is ever polled or
      answered as revoked. */
  lemma SimulatedIff(delegated: Option<string>, walletAddress: string, finding: ApprovalFinding, replies: Replies)
    requires finding.revocationStatus == NotAttempted
    ensures var v := Verdict(delegated, walletAddress, finding, replies);
            && (v.Ok? && v.value.revocationStatus == Simulated
                <==> delegated == Some(Lower(walletAddress)) && replies.post.Ok? && DryRunPassed(replies.post.value))
            && (v.Ok? && v.value.revocationStatus == NotAttempted <==> delegated != Some(Lower(walletAddress)))
            && (replies.post.Ok? && replies.post.value.status == "simulated" ==>
                  v.Ok? && v.value.revocationStatus != Revoked && v.value.revocationTxHash == finding.revocationTxHash)
            && (v.Ok? ==> v.value.revocationStatus != RevocationStatus.Pending)
  {
  }

  lemma VerdictKeepsFinding(delegated: Option<string>, walletAddress: string, finding: ApprovalFinding,
                            replies: Replies)
    requires Verdict(delegated, walletAddress, finding, replies).Ok?
    ensures var o := Verdict(delegated, walletAddress, finding, replies).value;
            && o == finding.(revocationStatus := o.revocationStatus, revocationTxHash := o.revocationTxHash)
            && (o.revocationStatus == Revoked ==>
                  delegated == Some(Lower(walletAddress)) && o.revocationTxHash.Some? && o.revocationTxHash.value != "")
            && (o.revocationStatus != Revoked ==> o.revocationTxHash == finding.revocationTxHash)
  {
  }
}
