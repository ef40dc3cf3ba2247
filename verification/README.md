# The consent ledger, verified

`consentd` decides whether an application may use a person's data. It keeps definitions, requests, grants, receipts,
sessions and artifacts in one ledger, changed by serialized transactions; profile switches fence it, maintenance compacts
it, and clients cache its decisions. This project models that ledger and the protocols around it in Dafny and proves what
holds over every run.

- **The ledger** (`Types`, `Ledger`, `Conditions`, `Operations`, `Daemon`): each SQL table is a map, each transaction a
  function from ledger to ledger or an error, each event of the daemon a step. `Invariants`, `Preservation`, `Verdicts`,
  `Transactions` and `Runs` prove one inductive invariant of all of them; `Progress` proves what no step undoes;
  `Guarantees` draws the run-level conclusions.
- **What each transaction does** (`Effects`, `Withdrawals`, `Coverage`, `Answers`, `Requests`, `Uses`, `Replies`): when
  it is accepted and which rows it changes how, in the fields of the tables and not in the functions of the model;
  `Consequences` draws what follows from that over a run.
- **A run to look at** (`Scenario`): a definition, a session, a request, its prompt and its answer, call by call from the
  empty repository; counterexamples are shown at its states.
- **The repository object** (`Repository`, `Sequences`): the statements and row loops of the source, in place, proved to
  compute those functions in whatever order rows come.
- **The registry** (`Registry`): registrations, uninstalls and offline imports.
- **Compaction** (`Compaction`, `Maintenance`): two ledgers are *alike* when they differ only in what compaction may have
  cleared; every operation respects that, so compaction cannot be observed.
- **Fences** (`Fencing`, `Profiles`, `Authority`, `ProfileAuthority`): profile fences at any point inside an operation,
  and the asynchronous switch protocol with its calls and barriers in flight as multisets delivered in any order.
- **The client** (`Revisions`, `Caching`, `DecisionCache`, `Serving`, `Repetition`): cached decisions, up to the joint
  behaviour of a client and a daemon that may lose its database; (`Exchange`, `Client`): operations and their ends.
- **Cleanup paging** (`Sweep`), **codecs** (`Numbers`, `Pack`, `Parcels`, `Frames`, `Streams`) and **texts**
  (`Templates`, `Prompts`, `Review`).

Time is an input of each event, one value per operation; the run-level results hold for every sequence of times. The
installation validator is an arbitrary predicate of each step, and the placement of fences inside an operation an
arbitrary input. `Id()` is a counter of unused names, and so is the epoch of a database. SHA-256 is taken as
injective, so a digest is represented by what it digests.

Four properties one might expect do not hold, and the exact condition is proved in each case:

- A fence that falls between the check after a commit and the final check makes the reply fail but leaves the new
  grants in force: a reachable instance is `Scenario.FenceCanLeaveGrants`, the windows are told apart in
  `Fencing.AnswerUnderFence`.
- A cached decision may be repeated for less than a millisecond after the session's deadline
  (`Repetition.LateByLessIsPossible`), exactly when the session limits its time to live and its request was
  admitted in the same millisecond the daemon measured it in, after its beginning
  (`Caching.LateExactlyWithinAMillisecond`).
- An offline record that passes the screening can still be refused, when equal revisions are spelled with different
  leading zeros (`Registry.LeadingZeroConflicts`, `Registry.ScreenedSeedAdvances`).
- Closing a handle reports DISCONNECTED even for an operation whose outcome is open
  (`Exchange.ClosingHidesAnOpenOutcome`): exactly when it was on the wire without a reply (`Exchange.ClosingIsCandid`),
  and nothing else does so (`Exchange.OnlyClosingHides`).

## Model

| member | source | states |
|---|---|---|
| Guarantees.NoResidentOnRevokedGrant | src/consentd/repository.cc:800-833 | In every state reachable by any run of calls, ticks, imports, fences, compactions, crashes and restarts, no source grant of an ACTIVE artifact, nor of any ancestor it was derived from at any distance, is revoked or gone |
| Guarantees.LineageHolds | src/consentd/repository.cc:2583-2648 | In every reachable state the derivation graph has no cycle, and a descendant at any distance expires no later than its ancestor, has no lower level and no fewer source grants |
| Guarantees.RetentionIsBounded | src/consentd/repository.cc:2502-2648 | No chain of derivations or repeated registrations keeps anything past the creation time of the root receipt plus one retention period its definition had when the original was registered |
| Guarantees.OnceBacksOneReceipt | src/consentd/repository.cc:1778-1799 | Over every run the receipts ever linked to a ONCE grant number exactly 1 minus its remaining uses, and never more than one, also after the grant row was cleared |
| Guarantees.ExecutionKeepsReceipt | src/consentd/repository.cc:1699-1719 | An (enforcer, operation, step) that has a receipt at some moment of a run has that receipt, and no other, at every later moment |
| Guarantees.RetryAnswersFromReceipt | src/consentd/repository.cc:1699-1719 | A retry is answered from the stored receipt alone: the same receipt while it is valid, CONFLICT for another payload, ESTALE otherwise; the ledger is unchanged |
| Guarantees.GrantsStandUnderTheirDefinition | src/consentd/repository.cc:2191-2225 | A grant in force was issued, and has stood ever since, under exactly the configuration its definition has now; that definition is active, permits its mode, and has only ONCE on level 3 |
| Guarantees.TableFollowsRegistry | src/consentd/repository.cc:835-894 | Unless a replay is due, the definitions table has the registry's definitions, as registered or masked; after a tick or restart it is exactly the registry masked by the installation validator |
| Guarantees.SessionsAndArtifacts | src/consentd/repository.cc:1283-1335 | In every reachable state an ACTIVE artifact is in an ACTIVE or SUSPENDED session, a CLOSED session has only DELETED artifacts, and a CLOSING one still has an undeleted one |
| Guarantees.EndsAreFinal | src/consentd/repository.cc:2444-2493 | Between any two moments of a run: DELETED and CLOSED stay so, nothing becomes ACTIVE again, a session that stopped being live stays so, no row disappears |
| Guarantees.SameGenerationMeansUninterrupted | src/consentd/repository.cc:1240-1281 | Two successful active checks of one session with equal generation, by whatever peers: the session was ACTIVE in that generation at every moment between, so no suspend, resume or close came between |
| Runs.RunKeeps | src/consentd/repository.cc:2849-2973 | The whole ledger invariant holds after every run from the empty repository |
| Runs.StepKeeps | src/consentd/repository.cc:2849-3110 | Each kind of event, with any fences, clock, validator and call, keeps the ledger invariant |
| Runs.ReplayProjects | src/consentd/repository.cc:835-894 | After a replay the table equals the registry masked by the validator |
| Runs.ReplayTwice | src/consentd/repository.cc:835-894 | A second replay under the same validator changes nothing, not even the revision |
| Runs.FenceKeeps | src/consentd/repository.cc:1190-1238 | A profile fence, with or without retiring grants and for whichever removed user, keeps the ledger invariant |
| Runs.ResetKeeps | src/consentd/repository.cc:896-908 | The reset of the runtime at a restart keeps the ledger invariant |
| Runs.ClearAllKeeps | src/consentd/repository.cc:2975-3056 | Any sequence of metadata clearings keeps the ledger invariant |
| Progress.RunOn | src/consentd/repository.cc:2849-3110 | Between any two moments of a run rows only move forward: nothing revoked, invalid, deleted or closed is restored, terms of grants and contexts of sessions never change, and an execution keeps its receipt |
| Invariants.RetireKeeps | src/consentd/repository.cc:800-833 | Revoking grants and invalidating receipts keeps every clause of the invariant provided the ACTIVE artifacts resting on them are blocked in the same transaction |
| Verdicts.VerdictSound | src/consentd/repository.cc:1505-1597 | A condition check gives one decision per requirement; it is ALLOWED if and only if every requirement has an unrevoked grant with a use left and time left whose nine key fields are those of the requirement under its present definition, whose session is the one asked for if it is a SESSION grant, and whose mode reaches the chosen period; then it names such a grant for each, no two with the same key |
| Verdicts.ReceiptValidSound | src/consentd/repository.cc:1599-1631 | A receipt is valid if and only if it was neither invalidated nor cleared, its profile is active, no source grant lapsed, and the definition of each requirement is active, installed, in the version named and accepts its arguments |
| Transactions.AuthorizedKeeps | src/consentd/repository.cc:1778-1799 | Consuming the ONCE grants of an ALLOWED verdict together with inserting its receipt keeps the ledger invariant |
| Transactions.EvaluateKeeps | src/consentd/repository.cc:1633-1840 | Whatever `request`, `check` or `authorize` commits is a sound ledger |
| Transactions.RespondKeeps | src/consentd/repository.cc:1931-2278 | Whatever an answer commits is a sound ledger; what it commits is `Answers.RespondAnswers` |
| Transactions.RegisterKeeps | src/consentd/repository.cc:2502-2582 | Registering an original artifact for a receipt found valid keeps the ledger invariant |
| Transactions.DeriveKeeps | src/consentd/repository.cc:2583-2648 | Registering a derived artifact keeps the ledger invariant, with the terms inherited from all its parents |
| Transactions.AcknowledgeKeeps | src/consentd/repository.cc:2444-2493 | Releasing or acknowledging an artifact, and closing sessions it completes, keeps the ledger invariant |
| Transactions.RevokeKeeps | src/consentd/repository.cc:2280-2306 | Revoking the grants of a subject keeps the ledger invariant; what is revoked is `Withdrawals.RevokeWithdraws` |
| Transactions.SessionActKeeps | src/consentd/repository.cc:1382-1490 | Closing, suspending, resuming or renewing a session keeps the ledger invariant |
| Transactions.DispatchKeeps | src/consentd/repository.cc:2861-2887 | Whatever call is dispatched, the ledger it is about to commit is sound |
| Preservation.CloseSessionKeeps | src/consentd/repository.cc:1283-1308 | Closing a session keeps the ledger invariant: its grants are revoked, its requests ended and its artifacts blocked together |
| Preservation.ExpireKeeps | src/consentd/repository.cc:1337-1380 | Expiry of requests, sessions and artifacts keeps the ledger invariant |
| Conditions.FindGrant | src/consentd/repository.cc:1546-1568 | The grant found is usable and no grant inserted after it is; when none is found, no grant of the table is usable |
| Answers.RespondAnswers | src/consentd/repository.cc:1931-2278 | An answer is taken if and only if its peer, prompt, screen and choice are right. A refusal issues no grant. A consent issues exactly one grant for each displayed requirement that lacks one, with the nine fields of the requirement under its present definition, the chosen mode, the session only for SESSION, the end now plus the duration only for TIMED, one use only for ONCE. The request becomes refused, allowed or invalidated with the decisions of the whole request on the new grants, and nothing else changes |
| Withdrawals.RevokeWithdraws | src/consentd/repository.cc:2280-2306 | A grant is revoked afterwards if and only if it was before or is of the named definition, subject and profile; exactly the receipts on revoked grants are invalid for it, exactly the ACTIVE artifacts on them wait for cleanup, and nothing else changes |
| Consequences.WithdrawnUntilAnswered | src/consentd/repository.cc:2280-2306 | In every run, after a revocation that succeeded, no grant of that definition, subject and profile is in force at any moment before someone consents to a request that asks for it |
| Consequences.NothingAllowedUntilAnswered | src/consentd/repository.cc:1505-1597 | Until then no condition check that needs that consent is ALLOWED, whoever asks, at whatever time and for whatever period |
| Coverage.VerdictSays | src/consentd/repository.cc:1505-1597 | Each row says ALLOWED, consent required or DENIED exactly as the grants and the definition of its requirement say, in their fields |
| Coverage.ConditionsDecided | src/consentd/repository.cc:1505-1597 | A condition check gives a decision if and only if its requirements are well-formed, distinct, installed, of the present version and the session asked for is usable |
| Coverage.SessionApprovalRests | src/common/approval.cc:170-187 | An approval for a session is ALLOWED if and only if each requirement has a PERSISTENT grant or a SESSION grant of that very session |
| Coverage.TimedApprovalRests | src/common/approval.cc:170-187 | An approval for a time is ALLOWED if and only if each requirement has a PERSISTENT grant or a TIMED one that does not end before the target |
| Coverage.PersistentChoiceRests | src/common/approval.cc:170-187 | With PERSISTENT chosen it is ALLOWED if and only if each requirement has a PERSISTENT grant |
| Coverage.AnyGrantServes | src/common/approval.cc:170-187 | For a plain request, a task or a single use any grant in force serves |
| Coverage.TimedApprovalLasts | src/common/approval.cc:170-187 | A timed approval ALLOWED now is ALLOWED at every later time before its target, while ledger and world stay as they are |
| Coverage.RepeatableIs | src/consentd/repository.cc:1505-1597 | A decision may be repeated by a client if and only if it is ALLOWED, unversioned, not enforced, on PERSISTENT or SESSION grants of definitions below level 3, and its session has time left; for at most 500 milliseconds and never past a deadline of the session |
| Withdrawals.FenceFences | src/consentd/repository.cc:1190-1238 | A grant is newly revoked if and only if it is of a binding that is retired (all of them, or those of the removed user), or a SESSION grant of a live session of a binding; every live session of a binding ends, its pending and allowed requests are invalidated, its receipts are no longer valid, and rows of no binding are unchanged |
| Withdrawals.FencedIsQuiet | src/consentd/repository.cc:1190-1238 | After a fence no session of a binding is live, no request of it pending or allowed, and no receipt of it valid |
| Effects.ExpireSweeps | src/consentd/repository.cc:1337-1380 | Row by row: a pending request at its deadline expires, a session past a deadline is suspended if it may be resumed and closed otherwise, with its grants, prompts and artifacts, an ACTIVE artifact at its end waits for cleanup, and every other row is as before |
| Consequences.SweepLeavesInTime | src/consentd/repository.cc:1337-1380 | After the sweep no ACTIVE artifact is at its end, no pending request at its deadline and no open session at a deadline |
| Consequences.SweepLeavesTheRest | src/consentd/repository.cc:1337-1380 | What is in time and in no ending session is left as it is |
| Consequences.NothingOutlivesItsRetention | src/consentd/repository.cc:2502-2648 | After every call or tick of a run that is not refused by a halt no artifact is ACTIVE at its end; with the bound on that end, none is ACTIVE once its root receipt is older than the retention it was registered under |
| Consequences.ReceiptsAreDated | src/consentd/repository.cc:1778-1799 | Every receipt of every reachable state was created by an `authorize` of the run, at its time, for its enforcer, operation and step and what it asked for |
| Uses.AuthorizeExecutes | src/consentd/repository.cc:1633-1799 | A first execution is answered if and only if its conditions are decided; if they are allowed it leaves a receipt created now on exactly the grants named, each ONCE grant among them loses its use, and nothing else changes |
| Uses.AuthorizeRepeats | src/consentd/repository.cc:1699-1719 | A repeated one is answered if and only if it is the same and its receipt stands, with that receipt |
| Uses.CheckPermits | src/consentd/repository.cc:2649-2655 | Using data is permitted if and only if the holder in its session uses its own ACTIVE, unexpired artifact as registered, and every source grant of it stands under its present, installed definition |
| Uses.NewIsOriginal | src/consentd/repository.cc:2516-2582 | An original is kept if and only if the holder is the one named for that requirement, the use is that of the requirement, the retention is not over and the session has room; until the creation of the receipt plus the retention, at the level of the definition, on all grants of the receipt |
| Uses.RegisterKeepsOne | src/consentd/repository.cc:2494-2582 | A holder keeps one original for a receipt that stands in its session: a second registration returns the first, and only for the same use |
| Uses.DeriveDerives | src/consentd/repository.cc:2583-2648 | Derived data is kept if and only if its parents, 1 to 16 different ones, may all be used; it has the earliest end and the highest level of them and exactly their sources |
| Uses.AcknowledgeReports | src/consentd/repository.cc:2444-2493 | A release or acknowledgement is taken if and only if it is the holder's, of its instance or in a reconciliation; the artifact is then DELETED on success and CLEANUP_FAILED otherwise, a closing session left without undeleted artifacts is CLOSED, and nothing else changes |
| Withdrawals.ResetRestarts | src/consentd/repository.cc:896-908 | A restart revokes exactly the grants that are not PERSISTENT, ends every live session, invalidates every pending request and every receipt and blocks every ACTIVE artifact |
| Withdrawals.ReplayReplays | src/consentd/repository.cc:835-894 | A replay writes exactly the definitions that differ from the registry masked by the validator, and revokes, invalidates, blocks and voids exactly what rests on those |
| Withdrawals.CommitTakenBack | src/consentd/repository.cc:1157-1188 | A commit a fence fell into has its new grants revoked and its request invalidated, and nothing else changed |
| Withdrawals.OpenOpens | src/consentd/repository.cc:1396-1436 | A session is opened if and only if the peer may, fewer than 128 are live and the four limits are in range; it runs for what was asked |
| Withdrawals.ActActs | src/consentd/repository.cc:1382-1490 | Its owner, in the present generation, may close it, suspend it while open, resume it in time with the last token, or renew its lease while open, and each does just that |
| Requests.QueryDecides | src/consentd/repository.cc:1633-1840 | A check is answered if and only if the peer may ask and the conditions are decided, and changes nothing |
| Requests.AdmitRecords | src/consentd/repository.cc:1720-1837 | A new request is recorded if and only if its conditions are decided, its period is permitted by every definition that still needs consent, and there is room; it records the verdict, the target and the deadline |
| Requests.RecallFinds | src/consentd/repository.cc:1633-1840 | The same request again finds the first, unless a stored approval it reports is no longer covered: then it is invalidated |
| Requests.CreateAsks | src/consentd/repository.cc:1633-1840 | A creation is one of the two, by whether the client named it before |
| Requests.ReadReads | src/consentd/repository.cc:1895-1929 | Its owner reads a request, cancels a pending one, and is told an approval only while it is covered; one no longer covered is invalidated |
| Requests.ShowDisplays | src/consentd/repository.cc:1931-2145 | A prompt is shown if and only if peer, screen and request are right; it draws a new token and lists the rows still lacking consent, all of them if PERSISTENT is offered, and with none left concludes the request |
| Replies.ReplyStands | src/consentd/repository.cc:2892-2955 | A transaction is answered if and only if no fence crossed its commit and, on the ledger it left, the definitions it was about are still installed, the data it speaks of may be used, and no fence rose before a reply that lets the caller go on |
| Replies.PermissionCrossesNoFence | src/consentd/repository.cc:2938-2950 | No reply that tells of a decision, prompt, open session or usable data crosses a fence; only the answer to a cancellation may cross one after its commit |
| Replies.WatchReports | src/consentd/repository.cc:1382-1395 | Watching shows the session and the number of its undeleted artifacts to whoever may act for its subject and profile, and changes nothing |
| Compaction.CompactionIsInvisible | src/consentd/repository.cc:2975-3056 | Whatever a compaction of any reachable repository clears, every later sequence of events gets exactly the replies it would have got without it |
| Compaction.RunsAlike | src/consentd/repository.cc:2975-3056 | Two runs that differ only in what their compactions clear, from ledgers alike, give the same replies throughout and end alike |
| Compaction.ClearAllLike | src/consentd/repository.cc:2975-3056 | Any batch of clearings relates the ledger before and after by the alikeness that all operations respect |
| Maintenance.ClearWeighs | src/consentd/repository.cc:3016-3026 | Clearing a record leaves exactly one less to clear, although clearing a receipt may make a grant clearable |
| Maintenance.IdleIsWeightless | src/consentd/repository.cc:2975-3056 | No record is clearable if and only if the count of what is left to clear is zero |
| Maintenance.BatchesReachFixpoint | src/consentd/repository.cc:2975-3056 | Without other activity each batch makes progress until nothing is clearable, within as many batches as the first ledger has records to clear |
| Maintenance.FixpointIsUnique | src/consentd/repository.cc:2975-3056 | The ledger left in the end does not depend on what was cleared when |
| Repository.Repository.CompactMetadata | src/consentd/repository.cc:2975-3056 | One run clears at most 128 records in all, each clearable at its turn, starts with the next class each time, and clears nothing only if nothing is clearable |
| Repository.Repository.CompactClass | src/consentd/repository.cc:3007-3047 | Clears only candidates of its class, within the budget, and nothing only where there is no candidate |
| Fencing.AnswerUnderFence | src/consentd/repository.cc:2849-2955 | For every placement of fences inside an answer: success if and only if none fell before the final check and the definitions are still installed; a fence before the post-commit check leaves every inserted grant rolled back or revoked, or halts the repository; otherwise the grants stand, and a fence between the two checks only makes the reply fail |
| Scenario.FenceCanLeaveGrants | src/consentd/repository.cc:1157-1188 | After a run from the empty repository that registers a definition, opens a session, asks and displays the prompt, for any number of fences between the two checks: the answer issues a grant, is refused, and the grant is in force |
| Scenario.DisplayingLeads | src/consentd/repository.cc:2849-2955 | That run, call by call, reaches the ledger at which the prompt waits |
| Fencing.CommitUnderFence | src/consentd/repository.cc:1157-1188 | A commit succeeds if and only if no fence fell before its check; otherwise none of the grants it inserted is in force, or the repository is halted and says so |
| Fencing.HaltedRefusesAll | src/consentd/repository.cc:910-912 | A halted repository refuses every later operation and does not change |
| Repository.Repository.constructor | src/consentd/repository.cc:768-791 | A new repository is the empty one all runs start from |
| Repository.Repository.EndRequests | src/consentd/repository.cc:819-833 | Ending requests one by one ends exactly the given set, and nothing else changes |
| Repository.Repository.CloseSession | src/consentd/repository.cc:1283-1308 | The statements and the loop over pending requests amount to one set-wise closing of the session |
| Repository.Repository.CloseSessions | src/consentd/repository.cc:1345-1368 | Closing the sessions one at a time, in whatever order the rows come, closes exactly the set |
| Repository.Repository.SuspendSession | src/consentd/repository.cc:1310-1328 | The new ledger is the set-wise suspension of the session |
| Repository.Repository.Expire | src/consentd/repository.cc:1337-1380 | The row loops compute the one-pass expiry at that time, whose effect row by row is `Effects.ExpireSweeps` |
| Repository.Repository.Invalidate | src/consentd/repository.cc:800-833 | The new ledger revokes the definition's grants, invalidates their receipts, blocks their artifacts and ends the requests that mention it, and nothing else |
| Repository.Repository.Replay | src/consentd/repository.cc:835-894 | Whatever the order of the definitions, the loop yields the set-wise projection of the registry, and no replay is due |
| Repository.Repository.Fence | src/consentd/repository.cc:1190-1238 | The loop over the bindings computes the set-wise fence, whose effect row by row is `Withdrawals.FenceFences` |
| Repository.Repository.ResetRuntime | src/consentd/repository.cc:896-908 | The new ledger is the quiesced one |
| Repository.Repository.FindGrant | src/consentd/repository.cc:1546-1568 | The scan finds the usable grant inserted last |
| Repository.Repository.CheckConditions | src/consentd/repository.cc:1505-1597 | The loop over the requirements gives the verdict that `VerdictSound` and `CachedDecisionStands` are about |
| Repository.Repository.Authorize | src/consentd/repository.cc:1778-1799 | Either the whole authorization, one use of each ONCE grant and one receipt, or an error and an unchanged ledger |
| Repository.Repository.IssueGrants | src/consentd/repository.cc:2191-2225 | Either a grant for each displayed row that lacks one, exactly those reported as new, or an error and an unchanged ledger |
| Repository.Repository.ProfileCommit | src/consentd/repository.cc:1157-1188 | Commit, rollback, compensation and halt as `CommitUnderFence` has them |
| Repository.Repository.RevokeEach | src/consentd/repository.cc:1168-1174 | The compensating loop revokes exactly the grants inserted by the operation |
| Repository.Repository.Execute | src/consentd/repository.cc:2849-2973 | The state and the reply are those of the step all run-level results are about |
| Sequences.CloseAllIsMany | src/consentd/repository.cc:1345-1368 | Closing sessions one after the other is closing them all at once |
| Sequences.FenceIsMany | src/consentd/repository.cc:1190-1238 | The set-wise fence is the fence of all bindings one by one, then the receipts, then the cleanup |
| Sequences.RedefineMore | src/consentd/repository.cc:847-882 | Replaying one more definition after some others is replaying all of them at once |
| Registry.InstallInstalls | src/consentd/repository.cc:1023-1147 | A first registration is accepted if and only if the definition is well-formed, installed, and advances the one it replaces without changing what it repeats; it replaces that one alone |
| Registry.UninstallDeactivates | src/consentd/repository.cc:1023-1090 | A first uninstall is accepted if and only if the package authority confirms the generation and every active definition of the package is of it; it deactivates the definitions of the package and no other |
| Registry.ImportSeeds | src/consentd/repository.cc:2675-2811 | An accepted first import leaves the definitions alone if and only if the retained one of the same generation was removed or is newer, and otherwise installs the seed alone |
| Registry.RegistryAdvances | src/consentd/repository.cc:1023-1147 | Over every sequence of registrations, uninstalls and offline imports a definition keeps its owner, neither revision decreases, and schema and messages change only with a larger revision |
| Registry.RepetitionIsIdle | src/consentd/repository.cc:1023-1050 | Repeating an accepted registration, uninstall or offline import changes nothing, whatever ran in between |
| Registry.ScreenedSeedAdvances | src/consentd/repository.cc:2675-2735 | An offline record for an active definition of the same generation judged neither obsolete nor conflicting passes the later revision checks if and only if, where both revisions are equal, they are spelled alike |
| Registry.LeadingZeroConflicts | src/consentd/repository.cc:2787-2811 | In a registry reached from the empty one, a record with revision "01" against "1" passes the screening and its import is refused with a conflict |
| Serving.ServedIsDecided | src/consent/client.cc:493-511 | In every behaviour of a client beside the daemon, with replies and events stamped with epoch and revision that arrive late, in any order, repeatedly or never, with restarts and losses of the database: an answer repeated while epoch and revision are the daemon's comes from a reply of this epoch to a request with the same key, is what the daemon would decide now as long as the validator agrees and the session is before its deadlines, and is less than a millisecond past the earliest of them |
| Serving.NextGood | src/consent/client.cc:570-663 | Each step of that behaviour keeps what it rests on: every reply is dated in the past or present and, while its epoch and revision stand, is what the conditions decide; every entry comes from such a reply |
| Serving.SameKeySameTuple | src/consent/client.cc:153-163 | Requests with the same cache key are read by the daemon as payloads that differ only in names and allowed time |
| Serving.EpochIsNeeded | src/consentd/repository.cc:661-766 | For every revision from 2 on, a daemon that lost its database can reach that revision again and allow nothing, so that the revision alone does not identify a ledger |
| Repetition.RepetitionHappens | src/consent/client.cc:493-511 | A world reached from the empty repository in which an answer is repeated at the daemon's own epoch and revision |
| Caching.CachedDecisionStands | src/consentd/repository.cc:1505-1597 | The daemon's side of it, on its runs: a cacheable answer is what the condition check decides for every payload with the same tuple, at every later moment where the revision has not moved, the validator says the same and the session is before its deadlines |
| Caching.ConditionsLater | src/consentd/repository.cc:1548-1595 | On one ledger a cacheable verdict is decided alike at every later time before the session's deadline |
| Caching.TtlEndsWithSession | src/consentd/repository.cc:1581-1595 | The time to live a verdict carries is positive, at most 500, and never reaches past the earliest deadline of its session, counted on the daemon's clock |
| Caching.EntryEndsWithSession | src/consent/client.cc:637-642 | The entry made for such a verdict expires within a millisecond after that deadline, despite the rounding of microseconds |
| Caching.NeverAMillisecondLate | src/consent/client.cc:637-642 | Over every run: an entry made for the reply of some step is never served a millisecond or more past the earliest deadline its session has at any later moment with the same revision |
| Repetition.LateByLessIsPossible | src/consent/client.cc:637-642 | In a world reached from the empty repository, at the daemon's own epoch and revision, an answer is repeated half a millisecond after the deadline of its session, when the daemon refuses the same request |
| Caching.LateExactlyWithinAMillisecond | src/consent/client.cc:637-642 | For every session and entry, that is possible if and only if the session limits the time to live and the request was admitted within the millisecond the daemon measured it in, after its beginning |
| Revisions.SameRevisionIsAlike | src/consentd/repository.cc:793-798 | Two moments of a run with the same revision have ledgers that are alike, so every change but a compaction moves the revision |
| Revisions.StepHonest | src/consentd/repository.cc:2849-3110 | A step that leaves the revision leaves the ledger but for what a compaction clears |
| DecisionCache.KeyIsExact | src/consent/client.cc:153-163 | Two requests share a cache key if and only if they agree on all fields but the four that name the request |
| DecisionCache.DecisionCache.constructor | src/consent/client.cc:358-365 | A new client is out of step and keeps nothing |
| DecisionCache.DecisionCache.Invalidate | src/consent/client.cc:570-578 | An event empties the cache and puts the client in step exactly if it carries an epoch and a revision; the coherence of the cache is kept |
| DecisionCache.DecisionCache.Synchronize | src/consent/client.cc:598-618 | The client moves forward, or falls out of step if and only if the reply is from the past, of another epoch or of none; only entries of the unchanged revision survive |
| DecisionCache.DecisionCache.Oldest | src/consent/client.cc:645-651 | The key found was used no later than any other |
| DecisionCache.DecisionCache.Keep | src/consent/client.cc:644-656 | The entry is added, and a full cache loses exactly one other, used no later than the rest |
| DecisionCache.DecisionCache.Remember | src/consent/client.cc:626-659 | An answer is kept if and only if it is repeatable and the client is in step, for at most a second from its admission |
| DecisionCache.DecisionCache.Receive | src/consent/client.cc:580-663 | The whole new state after a reply; every entry is of the epoch and revision the client is in step with |
| DecisionCache.DecisionCache.Lookup | src/consent/client.cc:493-511 | An answer is repeated if and only if the client is in step and the entry unexpired; it is of the client's epoch and revision, and only its last use changes |
| Authority.NoCheckSucceedsWhileFenced | src/consentd/profile_state.cc:68-101 | In every interleaving of signals, late replies and barrier completions, from each fence to the next activation that takes effect no check succeeds, for any profile |
| Authority.LateActivationIsIgnored | src/consentd/profile_state.cc:74-86 | An activation prepared in another generation changes nothing |
| Authority.ActivationFollowsItsBarrier | src/consentd/profile_authority.cc:368-395 | Every activation that takes effect ends a barrier begun in its own generation without a fence in between; in the generation of a switch it activates the user switched to, after that switch's barrier, acknowledgement and completion; in that of a removal, the user active when it began or the one a switch that went through led to |
| Authority.RemovalBegunAt | src/consentd/profile_authority.cc:397-429 | The generation of a removal was opened at a step at which the user recorded with it was the active one, and no fence fell since |
| Authority.SwitchDoneFollowsItsBarrier | src/consentd/profile_authority.cc:464-492 | `SwitchUserDone` is sent only when the barrier begun with that very switch, without a fence since, has just succeeded |
| Authority.BegunAt | src/consentd/profile_authority.cc:344-492 | A barrier in flight was begun at a step of the run, in its own generation |
| Authority.AtKeeps | src/consentd/profile_authority.cc:143-492 | What calls and barriers in flight rely on holds after every run |
| Profiles.ProfileState.constructor | src/consentd/profile_state.cc:40-42 | A new state is disabled and not ready |
| Profiles.ProfileState.Configure | src/consentd/profile_state.cc:48-66 | The bindings are taken if and only if none were before and no subject has a profile or user twice or a malformed name; otherwise nothing changes |
| Profiles.ProfileState.Fence | src/consentd/profile_state.cc:68-72 | The state is not ready and its generation is new |
| Profiles.ProfileState.Activate | src/consentd/profile_state.cc:74-86 | Takes effect if and only if prepared in the present generation for a known user |
| Profiles.ProfileState.Check | src/consentd/profile_state.cc:88-101 | Succeeds if and only if profiles are disabled or the pair is bound to the active user of a ready state, with EBUSY and EACCES told apart |
| ProfileAuthority.ProfileAuthority.constructor | src/consentd/profile_authority.cc:50-80 | The initial state of the runs in `Authority` |
| ProfileAuthority.ProfileAuthority.Lose | src/consentd/profile_authority.cc:292-325 | The handler's new state is the step `Lose` of the protocol |
| ProfileAuthority.ProfileAuthority.Stop | src/consentd/profile_authority.cc:82-110 | Stopping fences; calls and barriers still in flight are ignored when they end |
| ProfileAuthority.ProfileAuthority.Initialize | src/consentd/profile_authority.cc:344-366 | The handler's new state is the step `Initialize` |
| ProfileAuthority.ProfileAuthority.OnNameAppeared | src/consentd/profile_authority.cc:262-278 | The handler's new state is the step `NameAppeared` |
| ProfileAuthority.ProfileAuthority.OnNameVanished | src/consentd/profile_authority.cc:280-290 | The handler's new state is the step `NameVanished` |
| ProfileAuthority.ProfileAuthority.OnMethodFinished | src/consentd/profile_authority.cc:143-165 | A reply of another generation or owner is dropped, a failed one loses the authority, any other continues its call |
| ProfileAuthority.ProfileAuthority.Continue | src/consentd/profile_authority.cc:368-384 | The continuation of a call answered in its own generation |
| ProfileAuthority.ProfileAuthority.OnBarrierFinished | src/consentd/profile_authority.cc:381-395 | A finished barrier activates, acknowledges or is ignored as the protocol's step has it |
| ProfileAuthority.ProfileAuthority.OnRemoveStarted | src/consentd/profile_authority.cc:397-429 | The removal of a user fences and begins the barrier of that user |
| ProfileAuthority.ProfileAuthority.OnSwitch | src/consentd/profile_authority.cc:430-463 | A malformed, unexpected or unsynchronized signal loses the authority; a completion is noted only for the switch under way |
| ProfileAuthority.ProfileAuthority.OnSwitchStarted | src/consentd/profile_authority.cc:464-492 | A started switch fences and begins its barrier, or loses the authority when another is under way |
| ProfileAuthority.ProfileAuthority.Handle | src/consentd/profile_authority.cc:143-492 | Whatever arrives next, the object moves by the step all run-level results are about |
| Sweep.ListRefuses | src/consentd/repository.cc:2374-2393 | A page is refused if and only if its cursor is malformed (EINVAL), of another incarnation of the database (ESTALE) or of another scope |
| Sweep.Progress.CleanupSweep | src/common/cleanup_sweep.cc:23-71 | Against any world that changes between pages: never EPROTO; a finished sweep, even over several invocations, has handed over each artifact that stayed pending on all its pages, in ascending order and none twice; at most the page budget per invocation |
| Sweep.Progress.constructor | src/common/cleanup_sweep.cc:23-71 | A sweep not yet begun |
| Sweep.Progress.Hand | src/common/cleanup_sweep.cc:51-59 | All rows of a page are handed over in order, and the first failure is remembered |
| Sweep.Progress.Page | src/common/cleanup_sweep.cc:37-69 | One page is checked and handed over and the cursor is a new one, or the sweep is finished and complete, or the fetch failed; no page breaks the protocol |
| Sweep.SweptIsExact | src/consentd/repository.cc:2374-2443 | At every point of a sweep the rows handed over are, among those pending on all pages, exactly the covered part of the initial range, ascending |
| Sweep.AdvanceExact | src/consentd/repository.cc:2374-2443 | A page asked for by the sweep's own cursor is never refused, keeps the sweep exact, and moves the cursor unless it is the last |
| Sweep.CursorMoves | src/common/cleanup_sweep.cc:65-68 | The cursor of the next page is strictly further on |
| Sweep.ParseEncode | src/common/cleanup_cursor.cc:40-63 | Every proper cursor is read back from its token |
| Sweep.EncodeParse | src/common/cleanup_cursor.cc:40-63 | Every token that is read was written for the cursor it is read as |
| Sweep.NextIsProper | src/consentd/repository.cc:2374-2443 | The cursor the daemon emits is one that `Parse` accepts |
| Sweep.OtherDatabase | src/consentd/repository.cc:2374-2443 | A cursor of another database is refused |
| Streams.StreamDelivers | src/consent/client.cc:694-731 | Any list of canonical messages, encoded, concatenated and cut into reads at arbitrary points, is delivered as exactly that list in order with nothing left over |
| Streams.CutsDoNotMatter | src/consent/client.cc:694-731 | However any stream of bytes is cut, well-formed or not, the same messages are delivered and it fails or not alike; if it does not, the same bytes are left |
| Streams.Connection.constructor | src/consent/client.cc:345-356 | A new connection has received nothing |
| Streams.Connection.Read | src/consent/client.cc:694-731 | One read hands on every whole frame of the bytes so far and keeps the rest; a bad size or body fails |
| Streams.Encode | src/common/message.hh:94-159 | The loops compute the frame of the message, empty if it is not encodable |
| Streams.Gather | src/common/message.hh:125-139 | The fields in the order of their keys with the exact size of the frame, or nothing if too large |
| Streams.Decode | src/common/message.hh:164-207 | The loops compute the message of a body, or refuse it |
| Frames.DecodeEncoded | src/common/message.hh:94-207 | A canonical message is decoded from its own frame, whose header is its size and within the limit |
| Frames.AcceptedReencodes | src/common/message.hh:164-207 | Every body accepted decodes to a canonical message that is encoded at the same size and decoded to itself |
| Parcels.GetPut | src/common/parcel_codec.hh:36-107 | An envelope is read back from what it was written as |
| Parcels.PutGet | src/common/parcel_codec.hh:73-107 | Every body that is read is byte for byte what its envelope is written as |
| Parcels.GetPutStr | src/common/parcel_codec.hh:56-98 | A string is read back, whatever bytes follow |
| Numbers.ParseNumber | src/common/message.hh:45-66 | Accepts exactly the decimal texts of 64-bit integers, with no intermediate overflow |
| Numbers.ParsedText | src/common/message.hh:45-66 | The text of every 64-bit integer is read as that integer |
| Pack.Pack | src/consentd/repository.cc:143-154 | The loop packs the entries in the order of their keys |
| Pack.Unpack | src/consentd/repository.cc:156-179 | The loop reads keys and values by turns, or refuses the text |
| Pack.UnpackPacked | src/consentd/repository.cc:143-179 | Unpacking what was packed gives the map back, for every map within the size limit |
| Pack.PackedIsInjective | src/consentd/repository.cc:143-154 | Different maps have different packings, of whatever size |
| Pack.GrantKeyIsExact | src/consentd/repository.cc:1492-1503 | Two requirements share a grant key if and only if subject, profile, definition, version, scope, operation, purpose, recipient and holder all agree |
| Exchange.RunKeeps | src/consent/client.cc:382-442 | In every order of critical sections: each operation completes at most once, its callback is taken at most once, an end by deadline or lost connection is reported as such only if nothing was attempted on the wire or a reply had arrived, and the byte count is that of the unsent bytes queued and within its limit |
| Exchange.NoCallbackAfterwards | src/consent/client.cc:1008-1032 | After a detach, or after the handle is closed, the callback of an operation is never taken |
| Exchange.RunOnward | src/consent/client.cc:382-1032 | Between any two moments of a run nothing done, detached, sent or accepted is undone, and an outcome changes only by closing |
| Exchange.ClosingIsCandid | src/consent/client.cc:936-963 | For every run and every operation listed when an open handle is closed: it is reported as disconnected, and that is the truth if and only if nothing of it was attempted on the wire or its reply had arrived |
| Exchange.OnlyClosingHides | src/consent/client.cc:936-963 | In every run, an operation reported as timed out or disconnected although its outcome is open was closed upon while it was listed, sent and unanswered |
| Exchange.ClosingHidesAnOpenOutcome | src/consent/client.cc:936-963 | A run in which that happens |
| Client.WrittenKeeps | src/consent/client.cc:733-761 | The write loop, for all answers of the transport, keeps the invariant and undoes nothing |
| Client.Client.constructor | src/consent/client.cc:358-365 | A new handle has no operations and an empty queue |
| Client.Client.Admit | src/consent/client.cc:444-538 | The operation is entered under a new name, already done on a cache hit, unless the handle is closed or disconnected |
| Client.Client.Complete | src/consent/client.cc:422-442 | The first completion counts and a later one changes nothing; who must hear of it stays listed |
| Client.Client.Queue | src/consent/client.cc:540-568 | A frame joins the queue and the byte count, or the operation ends with invalid or busy |
| Client.Client.Write | src/consent/client.cc:733-761 | The loop drops frames nobody waits for, marks an operation before its frame is tried, and leaves the byte count that of the bytes still queued |
| Client.FailureIsTold | src/consent/client.cc:665-692 | Each open operation then ends with malformed, or, for a lost connection, with outcome unknown if its frame was attempted without a reply and disconnected otherwise |
| Client.Client.Fail | src/consent/client.cc:665-692 | Completing one open operation after the other ends exactly the open ones, each with its own outcome, and none is open afterwards |
| Client.Client.Close | src/consent/client.cc:936-963 | Every operation under way ends without its callback; a second close changes nothing |
| Client.Client.Receive | src/consent/client.cc:580-663 | A reply without a version, a valid status or, if pending, a request name is refused; one nobody waits for is ignored; any other marks its operation accepted and completes it unless it is pending |
| Client.Client.Expire | src/consent/client.cc:813-818 | A deadline says outcome unknown exactly if the frame was attempted and no reply came |
| Client.Client.Dispatch | src/consent/client.cc:382-420 | The callback is called if and only if it is there, the handle open and the operation not detached; it is then gone |
| Client.Client.Detach | src/consent/client.cc:1008-1032 | Found if and only if listed and asynchronous; then its callback is gone and it is no longer listed |
| Prompts.PromptIsFormatted | src/common/localization.cc:318-437 | For every accepted definition, requested locale and accepted request, the prompt with the texts of the selected locale and the appended arguments is displayed as the template with each slot replaced once by its value as it is, if the prompt has at most 256 fields and that text at most 8192 bytes, and otherwise not at all |
| Prompts.AppendedIsRead | src/common/localization.cc:324-349 | The arguments appended to a row of a prompt are exactly those read back from it, none of its fields is stray, and its other texts are unchanged |
| Prompts.KeyIsExact | src/common/localization.cc:338-344 | Fields of different arguments, and different fields of one, have different keys |
| Prompts.CallerArguments | src/common/localization.cc:228-244 | The loop refuses a request if and only if it carries a display argument of its own |
| Prompts.Arguments | src/common/localization.cc:246-268 | Values for all parameters if and only if the request is within the limits, carries no display argument, and each value is there and fits its schema |
| Prompts.FormatPrompt | src/common/localization.cc:377-437 | The loops compute what is displayed of a row, or refuse it for its size, its count, its version, a stray or malformed argument, or its texts |
| Templates.TextIsFormatted | src/common/localization.cc:270-293 | The same for the two texts and the list of arguments, before they are fields of a prompt |
| Templates.LocaleIsFound | src/common/localization.cc:351-375 | Locale selection always gives a registered locale: the requested one, its registered fallback, the language of ko-KR, en-US or en-GB, or the default, in that order |
| Templates.PiecesShow | src/common/localization.cc:80-101 | Reading a template loses nothing: its pieces, written out, are the template |
| Templates.ShowPieces | src/common/localization.cc:80-101 | Every sequence of well-formed pieces is read back from its text |
| Templates.Placeholders | src/common/localization.cc:80-101 | The loop adds exactly the slot names of the template, or refuses it for its braces, names or their number |
| Templates.Render | src/common/localization.cc:270-293 | The loop yields the one-pass substitution of the pieces, or nothing if a value is missing or the text too long |
| Templates.MessageLocales | src/common/localization.cc:174-226 | The loops accept exactly the definitions whose texts all name the declared parameters and whose default and fallbacks lead to registered locales, and find those |
| Templates.FallbacksDoNotChain | src/common/localization.cc:221-224 | The separate search for chains of fallbacks can never find one |
| Templates.ArguedIs | src/common/localization.cc:246-268 | A parameter has a value if and only if the retention of the definition, or the field of the request its schema names, is the canonical text of a number within its bounds, or a displayable text within its length |
| Templates.Collect | src/common/localization.cc:254-267 | Values for all parameters if and only if each is there and fits its schema |
| Templates.Format | src/common/localization.cc:388-436 | The loops compute the checked and rendered title or body from the texts and the arguments |
| Review.Paginate | src/consent-ui/PromptSnapshot.cs:272-309 | After line ends and tabs are replaced, a text is refused if and only if it has a hidden character or an element longer than 16; otherwise every visible element is on the pages, in order, and each page has at most 6 lines of at most 26 elements |
| Review.Cut | src/consent-ui/PromptSnapshot.cs:281-309 | The loop over the elements |
| Review.SameContentSamePages | src/consent-ui/PromptSnapshot.cs:111-127 | Prompts with equal content strings have equal pages, fields, period and locale |
| Review.PromptReview.constructor | src/consent-ui/PromptReview.cs:18-21 | No prompt is displayed |
| Review.PromptReview.CanAllow | src/consent-ui/PromptReview.cs:22-23 | Approval is enabled if and only if the prompt may be approved and each of its pages was displayed since its content appeared |
| Review.PromptReview.Install | src/consent-ui/PromptReview.cs:29-36 | The same content keeps its page and its review; other content starts over at page 0 |
| Review.PromptReview.Move | src/consent-ui/PromptReview.cs:44-50 | One page forward or back within the prompt counts as displayed; anything else changes nothing |
| Review.PromptReview.Clear | src/consent-ui/PromptReview.cs:38-42 | Nothing is displayed and nothing was reviewed |

## Left out

- SQLite, journals, the detection of a corrupt database and its `cleanup_unknown` mark: a transaction is atomic, the registry rename is atomic, and a lost database is replaced by an empty one in a step of its own.
- The joint behaviour has one client connection; the features of a request (`feature_id`, `feature_revision`) are part of its cache key but of no condition.
- D-Bus, GLib contexts, sockets, threads, forks and peer authentication: event order, critical sections and roles are inputs.
- Offline spool files, and the server dispatcher with its dispatch limits.
- The selection digest and the screening of the fields of a versioned approval (`src/common/approval.cc`): whether an answer's selection is acceptable is an input of the answer. Which grants cover a versioned request is part of the condition check.
- The text of a prompt, its frame budget and its E2BIG error inside the ledger: what was displayed is the list of rows.
- The evidence rows of `cleanup_ack`: only the state of the artifact is modelled.
- Updating in place of `Evaluate`, `Prompt`, `Result`, `Session` and `Data` as a whole: they are functions on values; of them only the loops listed above are modelled in place.
- A single clock value serves a whole operation, where the source reads the clock several times.
- The uniqueness of the user within one generation is not claimed: a user removal and a user switch may overlap.
- UTF-8 validity is an arbitrary predicate, of which the codec only assumes that plain ASCII satisfies it; segmentation of text into elements is given.
- Artifact names are 48 hexadecimal digits in `Sweep` and numbers in the ledger; the order of the names is all that paging uses.
- `Pump`: its choice of deadlines, polling times and the limit of pending operations; each completion or queueing it makes is an event of `Exchange`.
- Taking apart the keys of the localized fields of a definition (`ParseSchema`, `MessageLocales`): `Templates` starts from the schema, the texts and the fallbacks they give.
- The arguments of a row are appended at the row that is displayed; the daemon collects them under the row of the request and renumbers their keys, which differ when only some rows are displayed.
- Which characters are control or format characters is an input of `Review.Paginate`.
- Exchange.ClosingHidesAnOpenOutcome: shows one run; the exact condition is in `Exchange.ClosingIsCandid`.
- Scenario.FenceCanLeaveGrants: shows one run; the exact condition is in `Fencing.AnswerUnderFence`.
- Repetition.RepetitionHappens: shows one world; the property is in `Serving.ServedIsDecided`.
- Repetition.LateByLessIsPossible: shows one world; the exact condition is in `Caching.LateExactlyWithinAMillisecond`.
