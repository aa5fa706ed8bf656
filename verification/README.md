# Wallet approval guard: a verified model

The repository watches a wallet's outstanding token approvals. A Rust backend keeps accounts, scan jobs and recurring
scans; a Python agent fetches approvals chain by chain, assigns a risk tier, revokes the dangerous ones and reports its
steps; a web page follows a job over a server-sent event stream. This project models the parts whose behaviour spans
many calls and proves what they promise. `dafny verify dfyconfig.toml` checks all of it.

| Files | What they model |
|---|---|
| `Common.dfy`, `StableSort.dfy` | Text and list helpers; the stable sort both languages use |
| `RateLimit.dfy` | The fixed-window limiter, in memory and as Redis buckets |
| `Sse.dfy`, `SseStream.dfy`, `SseStandard.dfy`, `SseTexts.dfy` | The page's incremental stream parser; the backend's producer and the round trip; where the page agrees with the standard and where not |
| `CodeGenerator.dfy` | Rejection sampling and zero padding of mailed codes |
| `AuthStores.dfy`, `AuthFlows.dfy`, `AuthRuns.dfy`, `AuthTheorems.dfy` | Stores and use cases of sign-in, reset and token rotation; whole runs; what every run guarantees |
| `AuthAccounts.dfy` | What the answers rest on, told by the history of a run: passwords, codes, tokens and their lifetimes |
| `RotationRuns.dfy` | Rotations whose store calls interleave with everything else |
| `Findings.dfy` | Findings, tiers and the approval key shared by backend and agent |
| `Jobs.dfy`, `JobFlows.dfy`, `JobRuns.dfy`, `JobMemory.dfy` | Jobs, recurring scans and their stores; the use cases; whole runs with split reads and write-backs; journal and recurring memory |
| `JobGuarantees.dfy` | The quota, due scans, launches and callbacks, told without the functions that compute them |
| `LaunchRuns.dfy` | Launches whose quota check and insert interleave with everything else |
| `JournalRuns.dfy` | The journal from the orchestrators to the store, with the clearing at an answer |
| `AgentModels.dfy`, `AgentTail.dfy` | Flags, risk rule, dedup; the assess, sort, revoke, deliver tail |
| `AgentLoop.dfy`, `AgentGraph.dfy`, `AgentAgreement.dfy` | The decision loop, the same loop as a graph, and where the two agree |
| `AgentRules.dfy`, `Refusals.dfy` | Tiers, order, news, answers and goals, told without the helpers that compute them; what a run says that inspected nothing |
| `AgentDeterministic.dfy`, `Workflow.dfy` | The walk without a model; the fixed pipeline |
| `KeeperHub.dfy`, `Usage.dfy`, `AgentSafety.dfy`, `AgentLimits.dfy` | The revocation service's decision logic; the spend guard; safety of whole agent runs; where it ends and the smallest runs that show it |

What lies outside the code is a parameter: clock readings, fresh identifiers and secrets, mail and dispatch outcomes,
the policy, the approval source, the threat intelligence, the revoker and every service reply may be anything, and may
differ from call to call. Hashes are injective constructors. Where a `HashMap` is walked, the order is arbitrary.

Each stateful component has a class with the source's fields and methods proved against a function of the old state;
the theorems are about those functions, over all inputs, runs and interleavings.

## Findings

The proofs settle a few places where the code and its comments differ; the model follows the code.

- The comment on code generation promises a uniform code. It is not: codes 000000 and 000001 have one word more than
  the others (`CodeGenerator.WordsPerCode`, `CodeGenerator.UniformIff`).
- "A failure never clobbers a completed job" holds for one call, but not across the reaper's snapshot and its
  write-back (`JobRuns.ReaperOverwritesCompletion`); `JobRuns.CompletionSurvives` says exactly when it holds.
- The graph is described as the same decision loop. It is, exactly until failed fetches use up the loop's steps
  (`AgentAgreement.AgreementIff`): the graph's budget counts scans only, and with the model-free policy a failing chain
  keeps it running for ever (`AgentDeterministic.GraphRunsForeverIff`). Over budget the loop skips revocation and the
  graph does not (`AgentLimits.OverBudgetRevokesIff`, `AgentLimits.OverBudgetRun`).
- Storing an answer clears the backend's journal, because "the resumed loop starts fresh". The graph does not: it resumes
  from its checkpoint and never reports its earlier steps again, so they are lost to the journal exactly when there were
  any (`JournalRuns.GraphJournalEndToEnd`, `JournalRuns.AnswerLosesStep`).
- Dedup in agent mode filters a fetch against earlier fetches only. If one fetch repeats a key, a harmless finding can
  receive the outcome of a dangerous one (`AgentLimits.SharedKeyRun`, `AgentLimits.HarmlessAlteredIff`); without repeats
  it cannot (`AgentTail.GateIsExact`).
- One unconsumed token per family, and the death of a revoked one, hold for rotations one at a time. With their store
  calls interleaved, a token several rotations found before one marked it gets as many successors
  (`RotationRuns.OvertakenIff`, `RotationRuns.ManyHeads`), and a rotation in flight brings a revoked family back
  (`RotationRuns.StaysDeadIff`, `RotationRuns.ReplayOutrun`).
- The daily quota is exact for launches one at a time; launches that overlap can pass the check together and exceed it
  by one less than there are in flight (`LaunchRuns.QuotaWithOverlap`, `LaunchRuns.OverlapReached`).
- The page's parser is not the standard's: `SseTexts.RegularTextIff` says on which lines they differ, and a stream with
  CRLF line ends delivers nothing (`SseTexts.ReturnsIff`, `SseTexts.CrlfIsLost`).
- Confirming a code is called the only way to a session; resetting a password opens one too.
- A simulation whose `wouldRevert` is null counts as passed, an absent one does not.
- A question pauses a pending job as well as a running one, although the comment names only the latter.
- A memory limit of zero still returns one key, because the cap is tested after a push.

## Model

| member | source | states |
|---|---|---|
| RateLimit.FixedWindowLimiter.AllowAt | backend/src/adapters/http/rate_limit.rs:49-60 | Evicts, charges, answers whether the count fits; afterwards every stored window is younger than the window length, so the re-anchor branch is never taken |
| RateLimit.StoredIsReference | backend/src/adapters/http/rate_limit.rs:49-60 | Over any run with times that do not go back, what is stored for a key is what a limiter that serves only this key and never evicts would hold, or nothing once that window has run out |
| RateLimit.EvictionInvisible | backend/src/adapters/http/rate_limit.rs:50-59 | Every answer is the one a per-key limiter without eviction gives on that key's hits alone |
| RateLimit.SlidingWindowBound | backend/src/adapters/http/rate_limit.rs:49-60 | Any closed interval one window long holds at most twice the maximum of allowed hits of a key |
| RateLimit.BoundIsTight | backend/src/adapters/http/rate_limit.rs:49-60 | For every maximum some run reaches exactly twice the maximum, so the bound cannot be improved |
| RateLimit.RefusalNeedsABurst | backend/src/adapters/http/rate_limit.rs:58-59 | When a hit is refused, the key has by then sent more than the maximum within one window-long interval |
| RateLimit.PoliteKeyNeverRefused | backend/src/adapters/http/rate_limit.rs:49-60 | A key that never sends more than the maximum within a window is never refused |
| RateLimit.RedisWindowLimiter.TryAllow | backend/src/adapters/http/rate_limit.rs:99-127 | Increments the counter of the current bucket, renews its expiry, and answers whether the count fits; an error when the request did not reach Redis or its reply was lost |
| RateLimit.RedisWindowLimiter.Allow | backend/src/adapters/http/rate_limit.rs:87-97 | An error lets the request in |
| RateLimit.RedisInvariant | backend/src/adapters/http/rate_limit.rs:113-126 | A counter outlives its bucket, so expiry never loses a count; the bucket's allowed requests are at most the capped counter, and exactly that when every request was answered |
| RateLimit.BucketBound | backend/src/adapters/http/rate_limit.rs:113-126 | A bucket never allows more than the maximum |
| RateLimit.RedisSlidingWindowBound | backend/src/adapters/http/rate_limit.rs:87-127 | The bucket form lets in at most twice the maximum per window-long interval, plus what met an error |
| Sse.SseParser.Feed | web/lib/api.ts:195-212 | One chunk: the events of every block completed by it, and the buffer is the unconsumed rest |
| Sse.SseParser.FeedAll | web/lib/api.ts:193-213 | A whole list of chunks fed one after another |
| Sse.ParseBlock | web/lib/api.ts:202-209 | The line loop: the last event name, all data lines joined, nothing without data |
| Sse.CutIsTheDecomposition | web/lib/api.ts:199-201 | The cut is the only way to write a text as separator-terminated blocks without an inner separator and a rest without one, so the buffer never holds a separator |
| Sse.RestIsSuffix | web/lib/api.ts:199-201 | The rest is a suffix of the text and holds no separator |
| Sse.CutContinues | web/lib/api.ts:196-201 | Cutting a text and then its rest with more text appended is cutting the whole, separators split across chunks included |
| Sse.ChunkingInvisible | web/lib/api.ts:193-213 | For any split into chunks the concatenated events and the final buffer are those of one call on the whole text |
| SseStandard.StandardAgrees | web/lib/api.ts:193-248 | On every text without carriage returns whose complete blocks have regular lines, the page, whose decoder drops a leading byte order mark, delivers what sections 9.2.5 and 9.2.6 of the WHATWG HTML Living Standard dispatch |
| SseStandard.RegularIff | web/lib/api.ts:204-208 | A line makes no difference between the two among regular lines exactly when it is regular: trimmed after one space, a name not empty, no bare field name |
| SseTexts.TellingText | web/lib/api.ts:204-208 | Every line that is not regular stands in a text of otherwise regular lines on which the page and the standard deliver different events |
| SseTexts.RegularTextIff | web/lib/api.ts:193-248 | All texts of regular lines around a line are delivered as the standard says exactly when the line is regular |
| SseTexts.ReturnsIff | web/lib/api.ts:199-201 | A text whose lines end in CRLF or CR is buffered whole and delivers nothing, where the standard dispatches what it would with line feeds; the two agree exactly when that is nothing |
| SseTexts.CrlfIsLost | web/lib/api.ts:199-201 | A concrete text: one event with CRLF line ends, dispatched by the standard and never delivered by the page |
| SseStream.LinesOfJoin | web/lib/api.ts:204-204 | Splitting joined one-line texts at newlines gives them back |
| SseStream.FrameRoundTrip | web/lib/api.ts:202-209 | A printed event block parses to that event, trimmed; a comment block to nothing |
| SseStream.RoundTrip | web/lib/api.ts:193-213 | Any list of printed events with keep-alive comments in between, split into any chunks, parses back to exactly that list |
| SseStream.DeliveredUnchanged | web/lib/api.ts:205-206 | An event survives printing and parsing unchanged exactly when its name and data lines are trimmed |
| SseStream.JobStream.Next | backend/src/adapters/http/sse.rs:45-64 | One pull of the producer: polls until the payload changes, ends after a terminal one or when the job is gone |
| SseStream.PullEndsIff | backend/src/adapters/http/sse.rs:45-64 | A pull ends the stream exactly if the job is gone before anything changed |
| SseStream.EmitsTheChanges | backend/src/adapters/http/sse.rs:45-64 | The emitted payloads are the readable polls with consecutive repeats removed, up to and including the first terminal one |
| SseStream.CarriedFrames | backend/src/adapters/http/sse.rs:59-60 | Frames that carry the payloads, with any keep-alives, deliver one update event per payload |
| SseStream.PageSeesTheChanges | web/lib/api.ts:193-213 | End to end: whatever the polls and the chunking, the page sees exactly the changed payloads in order |
| CodeGenerator.GenerateCode | backend/src/domain/email_verification.rs:136-146 | The first word at or below the limit gives the code; no word is skipped and none above the limit is used |
| CodeGenerator.PreimageCount | backend/src/domain/email_verification.rs:137-143 | How many words below a bound have a given residue |
| CodeGenerator.KeptResidues | backend/src/domain/email_verification.rs:137-143 | For every word maximum and modulus, residues 0 and 1 have exactly quotient many kept words and every other residue one fewer |
| CodeGenerator.UniformIff | backend/src/domain/email_verification.rs:129-146 | With the limit of the code the kept range is uniform exactly for moduli up to two |
| CodeGenerator.BlockBoundaryUniform | backend/src/domain/email_verification.rs:129-135 | The limit one below a multiple of the modulus, which the comment has in mind, would be uniform |
| CodeGenerator.PaddingBijection | backend/src/domain/email_verification.rs:145-145 | Zero padding and reading back are inverse between the numbers below 10^k and the k-digit texts |
| CodeGenerator.WordsPerCode | backend/src/domain/email_verification.rs:136-146 | For 32-bit words and six digits: 4294 words for codes 000000 and 000001, 4293 for every other code |
| AuthStores.UserRepository.Insert | backend/src/adapters/persistence/in_memory.rs:24-28 | Stores the user |
| AuthStores.UserRepository.FindByEmail | backend/src/adapters/persistence/in_memory.rs:29-37 | A stored user with that address, or none if there is none |
| AuthStores.UserRepository.MarkEmailVerified | backend/src/adapters/persistence/in_memory.rs:39-46 | Sets the verification instant of one user, once |
| AuthStores.UserRepository.UpdatePasswordHash | backend/src/adapters/persistence/in_memory.rs:47-53 | Replaces one password hash |
| AuthStores.EmailVerificationRepository.Insert | backend/src/adapters/persistence/in_memory.rs:79-93 | Consumes every live code of that user and purpose, then stores the new one |
| AuthStores.EmailVerificationRepository.ActiveForUser | backend/src/adapters/persistence/in_memory.rs:95-107 | Some live code of the user and purpose, or none if there is none |
| AuthStores.EmailVerificationRepository.FindByHash | backend/src/adapters/persistence/in_memory.rs:109-122 | Whether such a code was ever stored |
| AuthStores.EmailVerificationRepository.RecordAttempt | backend/src/adapters/persistence/in_memory.rs:124-129 | Charges one attempt to one code |
| AuthStores.EmailVerificationRepository.MarkConsumed | backend/src/adapters/persistence/in_memory.rs:131-136 | Consumes one code; an earlier instant stays |
| AuthStores.EmailVerificationRepository.DeleteExpired | backend/src/adapters/persistence/in_memory.rs:138-143 | Keeps exactly the unexpired codes and counts the others |
| AuthStores.RefreshTokenRepository.Insert | backend/src/adapters/persistence/in_memory.rs:153-156 | Stores the token |
| AuthStores.RefreshTokenRepository.FindByHash | backend/src/adapters/persistence/in_memory.rs:158-166 | A stored token with that hash, or none if there is none |
| AuthStores.RefreshTokenRepository.MarkConsumed | backend/src/adapters/persistence/in_memory.rs:168-173 | Marks one token consumed |
| AuthStores.RefreshTokenRepository.Delete | backend/src/adapters/persistence/in_memory.rs:175-178 | Removes one token |
| AuthStores.RefreshTokenRepository.DeleteForUser | backend/src/adapters/persistence/in_memory.rs:180-186 | Removes exactly the tokens of a user |
| AuthStores.RefreshTokenRepository.DeleteFamily | backend/src/adapters/persistence/in_memory.rs:188-194 | Removes exactly the tokens of a family |
| AuthStores.RefreshTokenRepository.DeleteExpired | backend/src/adapters/persistence/in_memory.rs:196-201 | Keeps exactly the unexpired tokens and counts the others |
| AuthFlows.SessionIssuer.Issue | backend/src/application/session.rs:44-51 | Opens a new family with one unconsumed token and changes nothing else; the token stays when signing the access token fails |
| AuthFlows.RegisterUser.Execute | backend/src/application/register_user.rs:28-43 | Account created with normalised address, or the error of the first failing check (lengths in bytes) and no change |
| AuthFlows.LoginUser.Execute | backend/src/application/login_user.rs:32-47 | The account exactly when address and password fit; nothing is stored |
| AuthFlows.RequestEmailVerification.IssueFor | backend/src/application/verify_email.rs:60-71 | The code is stored before it is mailed, superseding the live one |
| AuthFlows.RequestEmailVerification.Execute | backend/src/application/verify_email.rs:85-94 | Mails a code only to a known, unverified address |
| AuthFlows.ConfirmEmailVerification.StaleOrInvalid | backend/src/application/verify_email.rs:190-201 | Superseded exactly when the code was once issued here |
| AuthFlows.ConfirmEmailVerification.Execute | backend/src/application/verify_email.rs:138-186 | All branches of presenting a sign-in code, a failure to sign included, with their effect on the three stores |
| AuthFlows.RequestPasswordReset.Execute | backend/src/application/password_reset.rs:65-79 | Mails a reset code to a known address |
| AuthFlows.ResetPassword.Execute | backend/src/application/password_reset.rs:123-201 | All branches of a reset, with their effect on the three stores |
| AuthFlows.RefreshSession.Rotate | backend/src/application/refresh_session.rs:49-95 | Rotation: unknown, replayed, expired and accepted tokens, with the new token store |
| AuthFlows.RefreshSession.Revoke | backend/src/application/refresh_session.rs:100-109 | Logout removes the family of a known token |
| AuthRuns.StepIsTheUseCase | backend/src/application/verify_email.rs:138-186 | One step of a run changes the stores and answers exactly as the use cases and the two purges do |
| AuthTheorems.Reachable | backend/src/adapters/persistence/in_memory.rs:79-202 | The invariant over codes, tokens, families and charges holds after every run |
| AuthTheorems.OneSessionPerCode | backend/src/application/verify_email.rs:181-186 | Families correspond one to one to codes issued to the same user, all of them spent; every stored token lives in such a family |
| AuthTheorems.OpeningSpendsItsCode | backend/src/application/password_reset.rs:185-200 | The step that opens a family consumes the live, matching, unexpired, unexhausted code recorded for it; no other step adds or changes a family |
| AuthTheorems.IssuedWasSent | backend/src/application/verify_email.rs:60-71 | Every code ever issued was sent by some earlier step to that user for that purpose |
| AuthTheorems.ConfirmedCodeIsProper | backend/src/application/verify_email.rs:4-17 | Every session opened by confirming a code goes back to a registration, a sign-in with the right password, or a code sent again while the account was unverified |
| AuthTheorems.ResetLeavesOneToken | backend/src/application/password_reset.rs:194-200 | After a successful reset the user holds exactly the token just issued; others keep theirs |
| AuthTheorems.SentCodeIsTheLiveOne | backend/src/adapters/persistence/in_memory.rs:79-93 | A sent code becomes the only live one of its user and purpose |
| AuthTheorems.PurposesApart | backend/src/domain/email_verification.rs:35-46 | A use case of one purpose leaves the codes of the other purpose exactly as they were |
| AuthTheorems.SupersededIsHonest | backend/src/application/verify_email.rs:168-179 | Superseded is answered only for a code really issued to that user and purpose and now consumed, and changes nothing |
| AuthTheorems.GuessesCapped | backend/src/domain/email_verification.rs:27-28 | Over a whole run no code is charged more than five wrong guesses |
| AuthTheorems.FamiliesHaveOneHead | backend/src/application/refresh_session.rs:84-90 | In every reachable state a family has one user and at most one unconsumed token |
| AuthTheorems.RotatesOnce | backend/src/application/refresh_session.rs:56-90 | Each plaintext rotates successfully at most once in a whole run |
| AuthTheorems.RevocationIsExact | backend/src/application/refresh_session.rs:57-76 | A replay or a logout empties that family and leaves every other one untouched |
| AuthTheorems.DeadFamiliesStayDead | backend/src/application/refresh_session.rs:41-48 | Nothing ever re-enters an emptied family |
| AuthAccounts.AddressIsCanonical | backend/src/application/register_user.rs:29-29 | Addresses that differ only in ASCII case or surrounding space are one address |
| AuthAccounts.LengthsAreBytes | backend/src/application/register_user.rs:30-35 | The lengths that are checked are numbers of UTF-8 bytes |
| AuthAccounts.RegistersIff | backend/src/application/register_user.rs:28-43 | A registration succeeds exactly for an address with an at sign and three bytes that no account has, and a password of eight bytes |
| AuthAccounts.AccountsAppear | backend/src/application/register_user.rs:38-43 | An account appears by a registration only, unverified, with that address and password |
| AuthAccounts.AccountStep | backend/src/application/password_reset.rs:185-192 | To an existing account a step does nothing but this: a successful reset sets the new password of its user, a first accepted code verifies its address |
| AuthAccounts.PasswordsAreTheLast | backend/src/application/password_reset.rs:185-192 | In every run the stored hash of a user is that of the password last set by registering or by a successful reset |
| AuthAccounts.LoginIff | backend/src/application/login_user.rs:32-47 | Over any run a login reaches an account exactly with its address and the password last set for it |
| AuthAccounts.ResetThenLogin | backend/src/application/password_reset.rs:185-200 | After a reset the new password logs its user in and no other password does |
| AuthAccounts.LifetimesHold | backend/src/domain/refresh_token.rs:36-74 | Every stored code and token expires its lifetime after it was made |
| AuthAccounts.SignsInIff | backend/src/application/verify_email.rs:138-186 | Over any run a presented code signs in exactly if the account has a live code with this digest, fewer than five wrong guesses on it and an age below the lifetime, and a password to be set has eight bytes |
| AuthAccounts.RefusalsAreExact | backend/src/application/verify_email.rs:146-166 | Exactly when the answer is a short password, too many attempts, or expiry, and which of them comes first |
| AuthAccounts.SupersededIff | backend/src/application/verify_email.rs:168-201 | A wrong code is superseded exactly if the account was once sent it and it is spent, and otherwise invalid |
| AuthAccounts.ConsumptionIsStamped | backend/src/adapters/persistence/in_memory.rs:79-136 | A code is consumed once, at the moment it is accepted or replaced |
| AuthAccounts.RotatesIff | backend/src/application/refresh_session.rs:49-83 | Over any run a token rotates exactly if it is stored, unconsumed and younger than its lifetime |
| AuthAccounts.PurgesAreInvisible | backend/src/adapters/persistence/in_memory.rs:138-201 | The purges remove nothing that could still be accepted and leave nothing that is too old |
| AuthAccounts.SignInAnswersOwner | backend/src/application/session.rs:44-51 | An accepted code is answered with a session of the account it was sent to, whose token is stored unconsumed |
| AuthAccounts.RotationAnswersOwner | backend/src/application/refresh_session.rs:84-94 | A rotation is answered with a session of the same user in the same family |
| RotationRuns.RotateIsItsCalls | backend/src/application/refresh_session.rs:49-95 | Find, mark and insert, or find and reject, with nothing in between are the rotation |
| RotationRuns.HeadsConserved | backend/src/application/refresh_session.rs:49-95 | However store calls of rotations interleave, the unconsumed tokens of a family, stored or about to be, and the deleted ones are together those a sign-in or a mark that came too late ever added |
| RotationRuns.HeadsBounded | backend/src/application/refresh_session.rs:84-90 | A family has at most one unconsumed token and one more for each mark that came too late |
| RotationRuns.ManyHeads | backend/src/application/refresh_session.rs:50-90 | The bound is reached: n rotations of one token that all find it before one marks it leave n unconsumed tokens |
| RotationRuns.OneHeadIff | backend/src/application/refresh_session.rs:84-90 | Every family keeps one head throughout a run if and only if no mark of a consumed or deleted token happens while its family has a head |
| RotationRuns.OvertakenIff | backend/src/adapters/persistence/in_memory.rs:158-173 | A mark comes too late if and only if, since its rotation found the token, another rotation marked the token or it was deleted |
| RotationRuns.StaysDeadIff | backend/src/application/refresh_session.rs:41-48 | An emptied family stays empty in every continuation if and only if no rotation of it is in flight |
| RotationRuns.ReplayOutrun | backend/src/application/refresh_session.rs:56-90 | A concrete run: a replay is detected and the family deleted before the first rotation stores its successor, and the family lives again |
| StableSort.SortByIsStable | agent/src/aiagent/domain/models.py:239-241 | Sorting orders by key, keeps every element and keeps equal keys in order |
| StableSort.StableOrderUnique | backend/src/domain/approval_finding.rs:88-91 | There is only one stable order, so any stable sort computes the same list |
| StableSort.SortedIsFixed | backend/src/domain/approval_finding.rs:88-91 | Sorting a sorted list is the identity |
| Findings.SortInPlace | backend/src/domain/approval_finding.rs:89-91 | The slice becomes the stable sort of what it was |
| Findings.SortKeepsKeys | agent/src/aiagent/domain/models.py:239-241 | Sorting loses and invents no approval key |
| Findings.KeyIdentifiesApproval | backend/src/domain/approval_finding.rs:69-77 | For colon-free chain and token two keys are equal exactly when all three parts agree up to ASCII case |
| Findings.ColonsCollide | agent/src/aiagent/domain/models.py:58-62 | With a colon inside a part two different approvals share a key |
| Jobs.JobCopy.Start | backend/src/domain/job.rs:165-169 | In place: only a pending job becomes running |
| Jobs.JobCopy.Complete | backend/src/domain/job.rs:173-177 | In place: completed, error cleared, stamped |
| Jobs.JobCopy.Fail | backend/src/domain/job.rs:180-187 | In place: failed with the reason, unless completed |
| Jobs.JobCopy.RequestInput | backend/src/domain/job.rs:192-202 | In place: pauses a running or pending job, rejects an empty question, leaves any other job alone |
| Jobs.JobCopy.ProvideAnswer | backend/src/domain/job.rs:206-220 | In place: back to pending with the answer, or the error of the first failing check |
| Jobs.AcceptedAddressStays | backend/src/domain/job.rs:77-81 | An accepted address is its own trimmed form and not empty |
| Jobs.RecurringWalletLaunches | backend/src/domain/recurring.rs:42-48 | Launching never fails for a wallet a recurring scan was created with |
| Jobs.JobRepository.Insert | backend/src/adapters/persistence/in_memory.rs:245-248 | Stores the job |
| Jobs.JobRepository.Update | backend/src/adapters/persistence/in_memory.rs:250-261 | Writes the job back but keeps the stored spend |
| Jobs.JobRepository.CountCreatedSince | backend/src/adapters/persistence/in_memory.rs:280-292 | How many jobs of the user were created since |
| Jobs.JobRepository.ListUnfinishedOlderThan | backend/src/adapters/persistence/in_memory.rs:294-310 | A copy of each stale job exactly once, and nothing else |
| Jobs.JobRepository.StoreResults | backend/src/adapters/persistence/in_memory.rs:312-322 | Replaces the results of one job |
| Jobs.JobRepository.AppendStep | backend/src/adapters/persistence/in_memory.rs:334-343 | First arrival per number wins, the journal stays ordered |
| Jobs.JobRepository.ClearSteps | backend/src/adapters/persistence/in_memory.rs:355-358 | Drops the journal of one job |
| Jobs.JobRepository.AddUsage | backend/src/adapters/persistence/in_memory.rs:360-365 | Adds to the stored spend of a known job |
| Jobs.JobRepository.RecentApprovalKeys | backend/src/adapters/persistence/in_memory.rs:367-392 | The first distinct keys, newest run first, cut at the limit |
| Jobs.CollectKeys | backend/src/adapters/persistence/in_memory.rs:379-391 | The loop over the runs equals the capped duplicate-free list of all keys |
| Jobs.AddKeys | backend/src/adapters/persistence/in_memory.rs:381-389 | The loop over one run's findings, with the cap tested after a push |
| Jobs.RecurringRepository.Insert | backend/src/adapters/persistence/in_memory.rs:402-408 | Stores the scan |
| Jobs.RecurringRepository.Delete | backend/src/adapters/persistence/in_memory.rs:427-436 | Deletes only the caller's own scan |
| Jobs.RecurringRepository.ListDue | backend/src/adapters/persistence/in_memory.rs:438-447 | Every due scan exactly once |
| Jobs.RecurringRepository.MarkRan | backend/src/adapters/persistence/in_memory.rs:449-454 | Stamps one scan |
| JobFlows.StoreAndDispatch | backend/src/application/launch_search.rs:73-84 | The job is stored; after a refused dispatch it is stored again as failed |
| JobFlows.LaunchSearch.Execute | backend/src/application/launch_search.rs:60-90 | Quota check, creation, insert, and failure after a refused dispatch: the new store and the answer |
| JobFlows.RunDueSearches.RunOne | backend/src/application/run_due_searches.rs:65-98 | One due scan: skipped over quota, launched otherwise, marked either way; the dispatcher gets the memory of that moment |
| JobFlows.RunDueSearches.Execute | backend/src/application/run_due_searches.rs:61-101 | The tick is one due scan after another; a failing one ends it with everything before it kept in both stores |
| JobFlows.FailedTick | backend/src/application/run_due_searches.rs:80-81 | After a failing scan the stores, the count and the error stay as they were when it was reached |
| JobFlows.IngestResults.Start | backend/src/application/ingest_results.rs:81-90 | Started callback |
| JobFlows.IngestResults.Complete | backend/src/application/ingest_results.rs:92-127 | Results stored, job completed, digest handed to the sender; unknown job rejected |
| JobFlows.DigestIff | backend/src/application/ingest_results.rs:41-78 | A digest goes out exactly for news of a recurring run whose scan has a webhook, to that webhook; it names scan, job and wallet and tells of each new finding and of nothing else |
| JobFlows.IngestResults.RecordStep | backend/src/application/ingest_results.rs:131-138 | Step appended to the journal of a known job |
| JobFlows.IngestResults.RequestInput | backend/src/application/ingest_results.rs:142-152 | Question callback with its error cases |
| JobFlows.IngestResults.RecordUsage | backend/src/application/ingest_results.rs:156-163 | Spend added to a known job |
| JobFlows.IngestResults.Fail | backend/src/application/ingest_results.rs:165-174 | Failure callback |
| JobFlows.FailStaleJobs.Execute | backend/src/application/fail_stale_jobs.rs:25-40 | Exactly the stale jobs fail, all others are untouched, and the count is their number |
| JobFlows.AnswerClarification.Execute | backend/src/application/answer_clarification.rs:53-89 | Answer stored, journal cleared, re-dispatch, with every error case |
| JobRuns.CallIsReadThenWrite | backend/src/application/ingest_results.rs:81-90 | An uninterrupted callback is a read and its write-back, so the split runs below cover it |
| JobRuns.Reachable | backend/src/adapters/persistence/in_memory.rs:245-261 | Every run, with callbacks split into reads and late write-backs, keeps the store invariant |
| JobRuns.SharesADay | backend/src/application/launch_search.rs:65-69 | Why the check suffices although it uses an uncut clock reading and the job a later one cut to microseconds |
| JobRuns.QuotaHolds | backend/src/application/launch_search.rs:65-72 | For every user and instant at most the quota of jobs were created in the day before it, over any mix of launches and ticks |
| JobRuns.TickKeepsQuota | backend/src/application/run_due_searches.rs:62-98 | One tick with several due scans of one user and refused dispatches keeps the quota, adds only new jobs and marks exactly the due scans |
| JobRuns.TickNeverFails | backend/src/application/run_due_searches.rs:80-81 | Job creation never fails on a stored recurring scan |
| JobRuns.SpendConserved | backend/src/adapters/persistence/in_memory.rs:250-261 | Through any interleaving of stale write-backs and reports, each of the five stored spend figures is the integer sum of what was reported for the job |
| JobRuns.TicksAreSpaced | backend/src/domain/recurring.rs:77-86 | Two ticks serving one recurring scan are at least its interval apart, quota skips included |
| JobRuns.ApplyLifecycle | backend/src/domain/job.rs:163-220 | Which statuses a transition may lead to, and that only failed jobs carry an error |
| JobRuns.FinishedStays | backend/src/domain/job.rs:171-187 | In uninterrupted runs a completed job stays completed, and a failed one is later failed or completed |
| JobRuns.UnfinishedHasNoError | backend/src/domain/job.rs:173-187 | In every run, interrupted or not, only a failed job has an error |
| JobRuns.CompletionSurvives | backend/src/application/fail_stale_jobs.rs:31-38 | Exactly which late write-back leaves a completed job completed |
| JobRuns.CompletedIffSpared | backend/src/application/fail_stale_jobs.rs:29-38 | Over any run a completed job stays completed if and only if every write-back in it meets that condition |
| JobRuns.ReaperOverwritesCompletion | backend/src/application/fail_stale_jobs.rs:29-36 | A concrete run in which the reaper's stale copy turns a completed job into a failed one |
| JobGuarantees.LaunchRefusedIff | backend/src/application/launch_search.rs:65-69 | A launch is refused for the quota exactly if the user's own jobs of the last 24 hours reach it, and then stores nothing |
| JobGuarantees.LaunchStores | backend/src/application/launch_search.rs:71-84 | Below the quota exactly an address is launched; the stored job is pending, or failed with the dispatcher's reason |
| JobGuarantees.DueSkippedIff | backend/src/application/run_due_searches.rs:64-98 | A due scan is skipped exactly if its owner's own jobs of the last 24 hours reach the quota; otherwise a job of that owner is stored that bears the scan's identifier; either way the scan has run |
| JobGuarantees.OnlyOwnDayCounts | backend/src/adapters/persistence/in_memory.rs:280-292 | Over any run, other users' launches, jobs older than a day and all callbacks leave the answer to a launch as it was |
| JobGuarantees.LastRunIsLastServed | backend/src/adapters/persistence/in_memory.rs:449-454 | A stored scan's last run is the last tick of the run that served it |
| JobGuarantees.TickServesIff | backend/src/domain/recurring.rs:74-86 | A tick serves exactly the stored scans that no tick served yet or whose last serving tick is an interval ago |
| JobGuarantees.ScansComeAndGo | backend/src/adapters/persistence/in_memory.rs:402-436 | A scan goes only by its owner's hand and comes only by an accepted request; jobs never go |
| JobGuarantees.CreatedIsSound | backend/src/domain/recurring.rs:35-72 | A recurring scan is created exactly for an address, an interval from one minute to one week and a web address, if any, and is what was asked for |
| JobGuarantees.StoredAreSound | backend/src/domain/job.rs:70-82 | In every run each stored job scans 0x and forty hexadecimal digits, and each stored scan has a sound interval, wallet and webhook |
| JobGuarantees.CallbackIsExact | backend/src/domain/job.rs:165-220 | What each callback does to the one job it names, and exactly when a question or an answer is refused |
| JobGuarantees.QuestionIsAnswered | backend/src/domain/job.rs:165-220 | Start, question and answer in a row leave the job pending with both texts on it |
| JobGuarantees.AnswerTakenIff | backend/src/application/answer_clarification.rs:53-89 | An answer is taken exactly from the owner of a job that waits for one; the answer is stored, and a refused dispatch fails the job |
| JobGuarantees.AnswerIsItsCalls | backend/src/application/answer_clarification.rs:59-87 | An answer whose dispatch fails is a read and two write-backs of one copy |
| JobGuarantees.ReapedIff | backend/src/application/fail_stale_jobs.rs:25-40 | Exactly the pending and running jobs older than the timeout fail, never one that waits for an answer |
| LaunchRuns.LaunchIsItsCalls | backend/src/application/launch_search.rs:65-84 | A quota check and an insert with nothing in between are the launch |
| LaunchRuns.QuotaWithOverlap | backend/src/application/launch_search.rs:65-72 | However checks and inserts interleave, manual or scheduled, no 24 hours hold more jobs of a user than the quota plus the launches ever in flight together minus one |
| LaunchRuns.OverlapReached | backend/src/application/launch_search.rs:65-72 | For every quota and every number of launches in flight together some run reaches that bound |
| JobMemory.JournalIsFirstArrivals | backend/src/adapters/persistence/in_memory.rs:334-343 | For any arrivals the journal is strictly ascending and holds exactly the first arrival per number |
| JobMemory.AscendingUnique | backend/src/adapters/persistence/in_memory.rs:338-341 | Only one strictly ascending journal has given steps |
| JobMemory.JournalRebuildsRun | backend/src/adapters/persistence/in_memory.rs:334-343 | If each of some ascending steps arrives at least once, in any order and repetition, the journal is these steps |
| JournalRuns.JournalEndToEnd | agent/src/aiagent/application/run_agent_scan.py:102-218 | What the backend ends up with is what the loop's last run reported, whether or not an answer cleared the journal before it |
| JournalRuns.GraphJournalEndToEnd | backend/src/application/answer_clarification.rs:65-67 | With the clearing at an answer in the model, the journal of a graph run ends as its steps from the answer on; it is the whole run if and only if no question was answered or no step came before it |
| JournalRuns.AnsweredOnce | agent/src/aiagent/adapters/orchestration/langgraph_agent.py:217-222 | At most one answer ever resumes a graph run, so its journal is cleared at most once |
| JournalRuns.AnswerLosesStep | backend/src/application/answer_clarification.rs:50-52 | A concrete run: scan, question, answer, finish; the journal ends without the scan |
| JobMemory.MemoryHolds | backend/src/adapters/persistence/in_memory.rs:367-392 | The memory has no duplicate, only delivered keys, and all of them exactly when they fit the limit |
| JobMemory.NewestSurvive | backend/src/adapters/persistence/in_memory.rs:378-390 | A kept key was seen in a run no older than any run with a dropped key |
| JobMemory.NewExactlyOnce | backend/src/application/run_due_searches.rs:76-79 | While at most 200 distinct keys exist a finding is flagged new exactly in the first round that delivers its key |
| JobMemory.ForgetsIff | backend/src/application/run_due_searches.rs:76-79 | A delivered key is missing from the memory exactly when more than 200 exist |
| AgentModels.UnknownSignalsAreCautious | agent/src/aiagent/domain/models.py:93-124 | An unreadable malicious flag never makes an approval dangerous, an unreadable source flag never safe, and a trusted spender is never dangerous |
| AgentModels.FlagTextIsCanonical | agent/src/aiagent/domain/models.py:85-90 | A text flag reads the same in any case and with any surrounding space |
| AgentModels.DedupeApprovals | agent/src/aiagent/domain/models.py:251-261 | The loop over the seen set computes the deduplicated list |
| AgentModels.DedupKeepsFirst | agent/src/aiagent/domain/models.py:251-261 | Each key survives once, in order of first appearance, with the first approval that had it |
| AgentModels.UnseenIsNew | agent/src/aiagent/application/run_agent_scan.py:144-149 | What is kept of a fetch is exactly what has a key no earlier fetch brought |
| AgentModels.UnseenDistinct | agent/src/aiagent/application/run_agent_scan.py:144-152 | A fetch without repeated keys leaves none after filtering |
| AgentModels.ResolveKeepsKeys | agent/src/aiagent/application/run_scan.py:22-42 | One finding per approval, with its key, in order |
| KeeperHub.KeeperHubApprovalRevoker.DelegatedWallet | agent/src/aiagent/adapters/keeperhub.py:77-96 | Asked once; later calls answer what was cached |
| KeeperHub.KeeperHubApprovalRevoker.Revoke | agent/src/aiagent/adapters/keeperhub.py:98-148 | Refused, unmetered, for a foreign or unknown wallet; metered and executed otherwise |
| KeeperHub.KeeperHubApprovalRevoker.Execute | agent/src/aiagent/adapters/keeperhub.py:150-201 | Simulated, refused, polled: the answer in every case |
| KeeperHub.PollStatus | agent/src/aiagent/adapters/keeperhub.py:203-220 | The first terminal status before the deadline, else failed |
| KeeperHub.PolledIsFirstTerminal | agent/src/aiagent/adapters/keeperhub.py:203-220 | A reply is answered, with or without a hash, exactly when it is the first terminal one, or it is the bare failure and only pending replies came before the deadline |
| KeeperHub.PolledRaisesIff | agent/src/aiagent/adapters/keeperhub.py:208-211 | Polling raises exactly when a raising reply is the first that is not pending |
| KeeperHub.RevokedIff | agent/src/aiagent/adapters/keeperhub.py:98-114 | Revoked with a transaction exactly when the key executes as the scanned wallet, the request got an unsimulated execution, and its first terminal status completed with that hash |
| KeeperHub.DelegatedIff | agent/src/aiagent/adapters/keeperhub.py:77-114 | The key executes as the scanned wallet exactly if the service names one equal to it up to ASCII case |
| KeeperHub.SimulatedIff | agent/src/aiagent/adapters/keeperhub.py:162-176 | Simulated is answered exactly for a passed dry run, not attempted exactly for a foreign wallet, and a dry run never as revoked |
| KeeperHub.VerdictKeepsFinding | agent/src/aiagent/adapters/keeperhub.py:188-201 | Only the two revocation fields ever change, and Revoked comes with a hash and the right wallet |
| Usage.UsageMeter.RecordLlm | agent/src/aiagent/domain/usage.py:47-53 | One call counted, negative token counts ignored |
| Usage.UsageMeter.RecordSearch | agent/src/aiagent/domain/usage.py:55-61 | One search counted |
| Usage.MeterIsTheSum | agent/src/aiagent/domain/usage.py:50-64 | The meter holds the number of calls of each kind and the sums of their tokens, negative ones counted as none |
| Usage.CostIsNearest | agent/src/aiagent/domain/usage.py:33-39 | The cost is the dollar spend in micro-dollars, to the nearest one, halves to the even one |
| Usage.GuardTrips | agent/src/aiagent/domain/usage.py:70-85 | The guard trips when the spend reaches the cap, not half a micro-dollar before, and never without a cap |
| Usage.CostGrows | agent/src/aiagent/domain/usage.py:32-38 | With rates that are not negative more usage never costs less, rounding included |
| Usage.ExceededStays | agent/src/aiagent/domain/usage.py:81-85 | Once exceeded, the budget stays exceeded whatever is metered next |
| AgentTail.RevokeDangerous | agent/src/aiagent/application/execute_revocations.py:53-77 | The revoker is asked for exactly the dangerous findings in list order; findings and journal are folded as specified |
| AgentTail.ReplacedIff | agent/src/aiagent/application/execute_revocations.py:57-77 | Exactly the findings that share their key with a dangerous one are replaced |
| AgentTail.GateIsExact | agent/src/aiagent/application/execute_revocations.py:53-77 | For distinct keys: length, order and keys stay; a finding that is not dangerous is untouched; a dangerous one becomes the answer to its own call |
| AgentTail.SharedKeyLeaks | agent/src/aiagent/application/execute_revocations.py:64-77 | A harmless finding that shares its key with a dangerous one is overwritten by the verdict on the latter |
| AgentTail.JournaledRevocations | agent/src/aiagent/application/execute_revocations.py:65-72 | Behind the steps so far stands one numbered step per revocation, naming its spender |
| AgentTail.TailNumbered | agent/src/aiagent/application/run_agent_scan.py:193-218 | The tail continues the numbering: one step per revocation, then the report |
| AgentTail.Deliver | agent/src/aiagent/application/run_agent_scan.py:193-219 | Assess, sort, revoke, flag, report, deliver, as one specification |
| AgentLoop.Explore | agent/src/aiagent/application/run_agent_scan.py:102-179 | The decision loop with its else branch reaches the specified state with at most max_steps policy calls, for any policy, a raising one included |
| AgentLoop.RunAgentScan | agent/src/aiagent/application/run_agent_scan.py:99-225 | The whole run: paused, raised, refused or delivered; at most max_steps policy calls |
| AgentLoop.LoopReachable | agent/src/aiagent/application/run_agent_scan.py:102-169 | One numbered step per iteration; scanned, failed and finished are told apart by the steps |
| AgentLoop.CollectedDistinct | agent/src/aiagent/application/run_agent_scan.py:144-152 | If no single fetch repeats a key, the run collects distinct keys |
| AgentLoop.NothingLost | agent/src/aiagent/application/run_agent_scan.py:144-161 | Every key a successful scan returned is collected |
| AgentGraph.CheckpointRoundTrip | agent/src/aiagent/adapters/orchestration/langgraph_agent.py:78-119 | Steps survive the dict conversion whole; approvals lose exactly their date and transaction hash |
| AgentGraph.VisitsBounded | agent/src/aiagent/adapters/orchestration/langgraph_agent.py:154-232 | However it is resumed, the graph asks at most once, visits decide at most max_steps + failed fetches + 2 times, and numbers its steps without a gap |
| AgentGraph.GraphStops | agent/src/aiagent/adapters/orchestration/langgraph_agent.py:154-246 | An invocation with at most d failed fetches is over after max_steps + d + 1 visits |
| AgentGraph.GraphCollectsDistinct | agent/src/aiagent/adapters/orchestration/langgraph_agent.py:196-215 | If no single fetch repeats a key, the collected keys are those of the approvals, in order and distinct, over any number of answers |
| AgentGraph.GraphDeliver | agent/src/aiagent/adapters/orchestration/langgraph_agent.py:368-434 | The delivery of the graph, which does not look at the budget |
| AgentAgreement.SameDecision | agent/src/aiagent/adapters/orchestration/langgraph_agent.py:154-173 | Below the step budget both orchestrators take the same decision |
| AgentAgreement.InStepThroughout | agent/src/aiagent/adapters/orchestration/langgraph_agent.py:154-232 | For the first max_steps turns loop and graph hold the same steps, approvals and keys, whatever is scanned, fails, is asked or finishes |
| AgentAgreement.AgreementIff | agent/src/aiagent/adapters/orchestration/langgraph_agent.py:4-8 | Loop and graph end alike exactly when the loop did not spend its steps on failed fetches (or the graph happens to finish there in the same words) |
| AgentAgreement.AgreeWhenAllAnswers | agent/src/aiagent/adapters/orchestration/langgraph_agent.py:3-8 | Over a source that always answers, loop and graph agree for every policy that reads only the checkpoint |
| AgentAgreement.SameRunWhenAllAnswers | agent/src/aiagent/application/run_agent_scan.py:99-219 | Then, within the budget, their whole runs are equal |
| AgentAgreement.NeverCatchesUp | agent/src/aiagent/adapters/orchestration/langgraph_agent.py:122-123 | Past that point the graph never reaches the end the loop reached |
| AgentAgreement.SameRun | agent/src/aiagent/adapters/orchestration/langgraph_agent.py:397-434 | Matching ends deliver the same findings with the same journal after the same revocations |
| AgentAgreement.SameDelivery | agent/src/aiagent/application/run_agent_scan.py:99-219 | Unless failed fetches used up the steps, every chain failed or money ran out, the graph stops within one turn of the step budget and its whole run (outcome, journal, revocations) is the run of the loop |
| AgentAgreement.BothRefuse | agent/src/aiagent/application/run_agent_scan.py:185-191 | If every chain failed, both refuse to deliver |
| AgentAgreement.OverBudgetDiffers | agent/src/aiagent/adapters/orchestration/langgraph_agent.py:409-412 | Over budget the loop revokes nothing, the graph everything dangerous |
| AgentLimits.OverBudgetRevokesIff | agent/src/aiagent/adapters/orchestration/langgraph_agent.py:409-412 | Over budget the graph calls the revoker for exactly the malicious, untrusted approvals, so for nothing if and only if there is none |
| AgentLimits.OverBudgetRun | agent/src/aiagent/application/run_agent_scan.py:196-197 | A concrete run over budget: the loop revokes nothing, the graph one approval |
| AgentLimits.HarmlessAlteredIff | agent/src/aiagent/application/run_agent_scan.py:144-152 | In a loop run within its budget a finding that is not dangerous comes out altered if and only if a malicious, untrusted approval was collected under its key |
| AgentLimits.SharedKeyRun | agent/src/aiagent/application/run_agent_scan.py:144-152 | A concrete run: one fetch reports a token and spender as malicious and as verified; the verified one is delivered as dangerous |
| AgentLimits.HubOnlyJudges | agent/src/aiagent/adapters/keeperhub.py:98-201 | The execution service changes nothing of a finding but the verdict |
| AgentSafety.LoopJournalNumbered | agent/src/aiagent/application/run_agent_scan.py:102-217 | A loop run journals steps 1..n through scan, degraded, finish, revoke and report |
| AgentSafety.GraphJournalNumbered | agent/src/aiagent/adapters/orchestration/langgraph_agent.py:407-428 | So does a graph run over any number of answers |
| AgentSafety.CallsAreTheMalicious | agent/src/aiagent/domain/models.py:93-124 | The revoker is called once per collected approval with a recognised malicious flag and no recognised trust, in collection order, and for nothing else |
| AgentSafety.SortKeepsTargets | agent/src/aiagent/domain/models.py:220-241 | Sorting changes neither the set nor the order of what is revoked |
| AgentSafety.LoopDelivers | agent/src/aiagent/application/run_agent_scan.py:193-218 | With fetches that repeat no key, every collected approval is delivered once, the dangerous ones with the answer to their own call, all others untouched |
| AgentSafety.GraphDelivers | agent/src/aiagent/adapters/orchestration/langgraph_agent.py:397-434 | The graph does the same, over any number of answers, whatever it has spent |
| AgentSafety.RevokedIsProven | agent/src/aiagent/adapters/keeperhub.py:188-192 | A delivered finding reads revoked only if a call for a malicious, untrusted approval with its key was executed as the scanned wallet and completed with the shown transaction |
| AgentSafety.HubKeepsKeys | agent/src/aiagent/adapters/keeperhub.py:98-114 | The execution service's answers keep the approval key, so the gate theorems apply |
| AgentSafety.MeteredIsMonotone | agent/src/aiagent/domain/usage.py:64-85 | Over whatever is metered, the guard never lets a run back under its budget |
| AgentSafety.CostStopNeverRevokes | agent/src/aiagent/application/run_agent_scan.py:106-115 | A loop run stopped by money ends with the cost step and never calls the revoker |
| AgentRules.RuleIsTheTable | agent/src/aiagent/domain/models.py:93-124 | For every provider reply: dangerous exactly with a recognised malicious flag and no recognised trust, safe exactly with recognised source code and no recognised malicious flag, watched otherwise |
| AgentRules.DeliveredTiersFit | agent/src/aiagent/domain/models.py:93-124 | Whatever loop or graph deliver bears the tier its provider reply earns |
| AgentRules.WorkflowTiersFit | agent/src/aiagent/domain/models.py:93-124 | So does whatever the pipeline delivers |
| AgentRules.DeliveredWorstFirst | agent/src/aiagent/domain/models.py:239-241 | Dangerous findings come first and safe ones last in what loop or graph deliver |
| AgentRules.WorkflowWorstFirst | agent/src/aiagent/domain/models.py:239-241 | And in what the pipeline delivers |
| AgentRules.ReportIsHonest | agent/src/aiagent/application/run_agent_scan.py:199-217 | With earlier keys at hand a delivered finding is new exactly if its key is not among them, and the last step counts and tells the new ones |
| AgentRules.NoMemoryAllNew | agent/src/aiagent/domain/models.py:154-154 | Without earlier keys everything delivered is new |
| AgentRules.AnswerIsExact | agent/src/aiagent/application/execute_revocations.py:58-64 | The outcome of a call, an exception included: exactly when it is not attempted, simulated, revoked, and failed otherwise |
| AgentRules.ReasonsTellApart | agent/src/aiagent/application/execute_revocations.py:22-37 | No dry run, refusal or failure reads in the journal like a revocation |
| AgentRules.ReasonShowsTransaction | agent/src/aiagent/application/execute_revocations.py:25-26 | The journal shows the transaction of a revocation |
| AgentRules.AnswersTellApart | agent/src/aiagent/adapters/orchestration/langgraph_agent.py:149-152 | Different answers give the policy different goals |
| AgentRules.PolicyHearsAnswer | agent/src/aiagent/adapters/orchestration/langgraph_agent.py:154-173 | Within the budgets the policy is asked with a goal that starts with the original one and contains what the user answered, the original one if nothing was, and the graph does what it says |
| AgentRules.HeardForGood | agent/src/aiagent/adapters/orchestration/langgraph_agent.py:217-222 | Once a question was answered the policy hears that answer for the rest of the run |
| AgentRules.HeardApart | agent/src/aiagent/adapters/orchestration/langgraph_agent.py:149-172 | Runs that heard different answers ask their policies with different goals |
| Refusals.LoopNamesCauses | agent/src/aiagent/application/run_agent_scan.py:185-191 | A loop run all of whose chains failed raises an error that names every failed chain with its cause |
| Refusals.GraphNamesCauses | agent/src/aiagent/adapters/orchestration/langgraph_agent.py:379-397 | So does a graph run |
| Refusals.WorkflowNamesCauses | agent/src/aiagent/application/run_scan.py:146-153 | So does the pipeline, which passes the error of a single chain on as it is |
| Refusals.StopsTellTheBudget | agent/src/aiagent/application/run_agent_scan.py:106-114 | A run that a budget stopped says which budget |
| AgentDeterministic.RuleIntelQualifies | agent/src/aiagent/adapters/deterministic.py:96-106 | The assessment without a model uses the risk rule and only checkpointed fields |
| AgentDeterministic.RuleExplains | agent/src/aiagent/adapters/deterministic.py:96-106 | Every assessment by rule carries an explanation drawn from checkpointed fields and the tier alone |
| AgentDeterministic.LoopCoversChains | agent/src/aiagent/adapters/deterministic.py:121-134 | With no failing chain the loop scans each of the first max_steps chains exactly once, in order, and finishes |
| AgentDeterministic.GraphCoversChains | agent/src/aiagent/adapters/deterministic.py:121-134 | The graph does the same and ends on the next visit |
| AgentDeterministic.GraphRunsForeverIff | agent/src/aiagent/adapters/deterministic.py:124-127 | The graph never ends exactly when some chain fails within reach of the step budget |
| AgentDeterministic.FailingWalkDisagrees | agent/src/aiagent/adapters/deterministic.py:124-127 | There the graph never reaches the end of the loop |
| AgentDeterministic.OneDeadChain | agent/src/aiagent/adapters/deterministic.py:124-127 | A concrete run: one chain, one step, the chain is down |
| Workflow.RunScan | agent/src/aiagent/application/run_scan.py:123-165 | The pipeline loop computes the specified run |
| Workflow.DeliversIff | agent/src/aiagent/application/run_scan.py:146-165 | Delivers exactly when some chain of the list answered, or the list is empty, and the assessment succeeds |
| Workflow.JournalCoversChains | agent/src/aiagent/application/run_scan.py:129-145 | One numbered step per chain: scanned with the number of hits if it answered, degraded with the error if not |
| Workflow.WorkflowConservation | agent/src/aiagent/application/run_scan.py:156-165 | Each key a reachable chain returned stands in the report exactly once, tiers in order, stable within a tier |
| Workflow.FirstReportKept | agent/src/aiagent/application/run_scan.py:156-160 | Each finding shows, field by field, the first approval reported with its key and the assessment made of that approval |
| Workflow.BackendSortIsIdentity | backend/src/application/queries.rs:49-50 | The backend's second sort of a delivered report changes nothing |

## Left out

- Jobs.JobRepository.AddUsage: dollar amounts are integers (micro-dollars) and counters unbounded, where the source adds floats and fixed-width integers.
- Usage.CostGrows: rates and costs are exact rationals with half-even rounding, where the source uses floats; a negative rate is outside the claim.
- RateLimit.FixedWindowLimiter.AllowAt: the 32-bit hit counter is unbounded here.
- RateLimit.RedisWindowLimiter.TryAllow: the text form of the bucket name and the limiter's scope are not modelled; a counter is named by its key and bucket.
- Sse.SseParser.Feed: texts are sequences of characters, so surrogate pairs cut by a chunk are not modelled.
- SseStandard.StandardAgrees: compares events only; identifiers and reconnection times, which the page ignores, are not part of the standard's model either.
- AuthFlows.RegisterUser.Execute: lower-casing is ASCII only, and the password hasher never fails.
- AuthFlows.ConfirmEmailVerification.Execute: storage never fails here, an access token is the user it names, and the two reads of the code store and the write are one step.
- AuthFlows.RefreshSession.Rotate: the audit event is not modelled.
- AuthTheorems.FamiliesHaveOneHead: a rotation is one step in these runs, and so is every other use case; only rotations are also taken apart, in `RotationRuns.dfy`.
- RotationRuns.HeadsConserved: sign-ins, logouts, resets and purges are single steps on the token store, deleting any set of tokens.
- Findings.KeyIdentifiesApproval: lower-casing is ASCII only.
- JobRuns.QuotaHolds: a launch is one step in these runs; `LaunchRuns.dfy` takes its check and insert apart.
- JobFlows.RunDueSearches.Execute: storage errors are not modelled, and the scheduler's own KeeperHub key lookup is left out.
- JobFlows.IngestResults.Complete: the delivery of the digest and the audit log line are left out.
- JobRuns.TicksAreSpaced: a tick is one step, so two schedulers ticking at once are not covered.
- KeeperHub.PollStatus: the deadline is the number of replies that arrive before it; waiting is not modelled.
- KeeperHub.KeeperHubApprovalRevoker.Revoke: tracing and metrics are left out.
- AgentTail.RevokeDangerous: the list of steps the source appends to in place is returned as a new one.
- AgentLoop.RunAgentScan: exceptions of the sink itself and the worker's retry after a raised run are left out, the cap's two-decimal text is a parameter, and `max_steps` is a natural number.
- AgentGraph.VisitsBounded: checkpoint storage, a checkpoint that is lost and the framework's own recursion limit are not modelled; the claim is about the nodes and edges.
- AgentAgreement.AgreementIff: compares one dispatch; after a question the loop starts over and the graph resumes, and the runs that follow are not compared.
- AgentDeterministic.RuleIntelQualifies: the prose of an explanation is an arbitrary function of the checkpointed fields and the tier.
- JobMemory.NewExactlyOnce: each round is dispatched after the previous one delivered; overlapping rounds of one scan are not covered.
- PostgreSQL, HTTP handlers, OpenAPI, cookies, telemetry, configuration and `main.rs`: plumbing around the parts above.
- Passkeys, mail transport, the webhook's DNS guard, the GoPlus client and all cryptography: outside the modelled components.
- Journal kinds other than scan, degraded, finish, revoke and report, LLM prompts and reply parsing, `evaluation.py`, and all pages of the web client except the stream parser.
