# opchain: verified models of the checkpoint store, the MCP endpoint, the checkpoint contract and the token ledger

This project models four parts of opchain in Dafny and proves what they promise.

1. **The durable checkpoint store** (`StoreSpec`, `StoreProtocol`, `StoreRefinement`, `StoreHistory`, `StoreRuns`,
   `StoreReplies`, `StoreProgress`). Any number of processes run `createSession`, `read` and `write` on one project folder,
   as a transition system over files, locks and program counters; a process may fail or crash between any two steps. The
   atomic object in `StoreSpec` is the reference: every run is linearizable to it, and the promises about revisions, lost
   updates and sessions are proved of its histories and carried back to the files. `StoreReplies` says by the files and
   the arguments alone which call gets which answer, and `StoreProgress` that it does get it. `LocalStore` is the same code
   as one undisturbed process runs it; `CheckpointProvider` and `StrictServer` add the provider contract and the strict
   tools in front of it.
2. **The hosted endpoint** (`Mcp`, `McpRuns`, `SessionToken`, `Namespace`, `Hosted`, `HostedRuns`, `HostedReplies`). Body,
   budget, batch and dispatch; session tokens; and the key-value namespace that checkpoints share with votes, leads and
   rate limits.
3. **The checkpoint contract and reference URIs** (`Contract`, `Guards`, `Validator`, `HandoffReader`, `References`).
   `Contract` states declaratively what a checkpoint is; `Validator` holds the error-collecting methods, proved equal to
   it; `Guards` says field by field which values keep a valid checkpoint valid.
4. **The token ledger** (`UsageDedup`, `Pricing`, `Ledger`, `Releases`, `Reconcile`).

`dafny verify dfyconfig.toml` checks everything.

## Assumptions

They appear as `requires` clauses, or in the shape of the model, and nowhere else.

- A rename and a whole-file read are atomic; a lock is free again once its holder has released it or died; nobody else
  edits or deletes the store's files while it runs. A uuid drawn by a run is new to that run and to the registry.
- JSON text parses back to the value it was made from (`Codec.RoundTrips`). Objects have distinct member names, as
  parsed objects do. The revision hash is collision-free (`Codec.CollisionFree`) only where lost updates are concerned,
  and non-empty where the wrapper asks for that.
- The hosted namespace is sequential with a clock; the source accepts races there and nothing is claimed about them.
  `Host.Lawful` says that dates and decimal counts print without loss. Only
  `OnlyIssuedSessionsReachTheStore` assumes that nobody has the MAC of an id that was not signed (`Unforged`).
- Token counts are not negative where the two deduplications are compared.
- `Date.parse` is any map from texts to instants. `localeCompare` is any total preorder.

## What turned out false

Each of these is proved with its exact condition.

- A comment in `src/lib/mcp/checkpoint-store.js` says a legacy provider may return the checkpoint directly. One that has
  a member called `checkpoint` is taken for a record (`LegacyReadsAreExactUnlessNested`).
- The envelope validator means to ask for a known status, a supported version and the skill it is asked for, and likewise
  for row statuses and a handoff's type, version and time. `0` and `false` pass each of these checks, and no other value
  does that should not (`Guards`: one theorem per field); a checkpoint of no version and no skill is valid for every skill
  (`AnonymousPasses`, `AnonymousIsAdmissible`).
- The scan for duplicate handoff ids lets `0`, `false`, arrays and objects repeat, and no other id (`DuplicatesThatPass`).
- `references/manifest.json` is a valid path whose URI is the manifest's (`ParseInvertsPrint`, `ManifestNameIsTaken`).
- The two deduplications count differently when no single line carries every maximum (`TablesAgree`, `TablesCanDiffer`),
  read an all-zero breakdown differently (`ReadingsAgree`), and keep different messages (`TablesHaveTheseMessages`).
- Moving the drift into the largest bucket can publish a negative amount (`AbsorbDrift`, `AmountsCanGoNegative`).

## Model

| member | source | states |
|---|---|---|
| StoreRefinement.EveryRunIsLinearizable | src/lib/mcp/local-checkpoint-store.js:106-252 | Every interleaving of any number of clients, with faults and crashes between any two steps, is linearizable to one compare-and-swap register per skill and one set of sessions: the effects replay on the atomic object, end in the state the files show, and each lies between its call and its reply, which it determines |
| StoreRefinement.StepKeepsInv | src/lib/mcp/local-checkpoint-store.js:197-252 | Every step of every client keeps the invariant: each lock has one holder, what a holder read is still in the file, staged text is what the commit will publish, temporary names are private |
| StoreRefinement.RunKeepsInv | src/lib/mcp/local-checkpoint-store.js:197-252 | The invariant holds after every run from any project folder |
| StoreRefinement.ReplaceIsAtomic | src/lib/mcp/local-checkpoint-store.js:239-250 | Renaming a staged file is exactly the atomic step of its operation, and of no other; replacing the ignore file changes nothing the object shows |
| StoreRefinement.KnowsAfterReplace | src/lib/mcp/local-checkpoint-store.js:106-113 | A commit under one lock invalidates nothing that a holder of another lock has read |
| StoreRefinement.FaultShape | src/lib/mcp/local-checkpoint-store.js:106-113 | A fault changes no file, lock or uuid, logs its failure, and goes on to the unlink, the release or the reply |
| StoreRefinement.RegistryReadsBack | src/lib/mcp/local-checkpoint-store.js:204-206 | The registry text written from a set of ids parses back to exactly that set |
| StoreHistory.RecordIsLastCommit | src/lib/mcp/local-checkpoint-store.js:228-251 | A record is the text of the last committed write to its skill; writes to other skills never change it |
| StoreHistory.CreateOnlyCommitsFirst | src/lib/mcp/local-checkpoint-store.js:234-236 | A create-only write commits only onto an absent record, before every other commit to the skill |
| StoreHistory.CreateOnlyCommitsOnce | src/lib/mcp/local-checkpoint-store.js:234-236 | At most one create-only write per skill ever commits |
| StoreHistory.GuardedCommitReplacesItsRevision | src/lib/mcp/local-checkpoint-store.js:237-239 | A revision-guarded commit replaces content with exactly that revision |
| StoreHistory.WrittenRevisionIsRead | src/lib/mcp/local-checkpoint-store.js:219-251 | Until the next commit every read sees the value written, under the revision the write returned |
| StoreHistory.ReadsReturnCommits | src/lib/mcp/local-checkpoint-store.js:219-224 | A read returns a value some write fully committed, or the one the project began with, never a torn one |
| StoreHistory.NoLostUpdate | src/lib/mcp/local-checkpoint-store.js:228-251 | If every write is an update of what its client last learned, from a read or its own write, guarded by the revision learned and by null where there was no checkpoint, then the record is the composition in commit order of exactly the committed updates, from the first checkpoint on and even when contents repeat |
| StoreHistory.CommitUpdatesTheRecord | src/lib/mcp/local-checkpoint-store.js:237-251 | What a commit of such a client replaces is the very value it knew, or nothing where it had read nothing |
| StoreHistory.RegistryIsExact | src/lib/mcp/local-checkpoint-store.js:197-213 | The sessions are the initial ones and the issued ones, and no id is issued twice |
| StoreHistory.RegistryGrows | src/lib/mcp/local-checkpoint-store.js:163-167 | A session issued stays issued, so the check made before the lock still holds at the commit |
| StoreRuns.RunsKeepEverySession | src/lib/mcp/local-checkpoint-store.js:149-213 | In every run the registry file reads back as the initial and the issued ids, strictly sorted once written; the ignore file only grows and covers the runtime files before any session is issued |
| StoreRuns.RunsStoreTheLastCommit | src/lib/mcp/local-checkpoint-store.js:219-252 | In every run the file of a skill is byte for byte the last committed text, or the original |
| StoreRuns.RunsLoseNoUpdate | src/lib/mcp/local-checkpoint-store.js:19-21 | No lost update, stated on the file after any run from any folder, one without the record included; needs a collision-free revision |
| StoreRuns.RunsHaveOneCreator | src/lib/mcp/checkpoint-store.js:34-37 | Of any number of racing create-only writes at most one commits, and it is first |
| StoreRuns.RunsReplaceTheirRevision | src/lib/mcp/local-checkpoint-store.js:237-239 | In every run a revision-guarded commit replaces a text of exactly that revision: the last committed one, or the original |
| StoreRuns.RunsReadWhatWasWritten | src/lib/mcp/local-checkpoint-store.js:219-251 | In every run, from a commit to the next, a read shows that value under the returned revision, unless it fails or its session was not issued by then |
| StoreRuns.RunsHideTheRuntimeFiles | src/lib/mcp/local-checkpoint-store.js:129-187 | In every run, once a session is issued each of the four private patterns is a line of the ignore file |
| StoreRuns.OnlyCommitsChangeReads | src/lib/mcp/local-checkpoint-store.js:239-250 | No step but a rename changes any file that is read |
| StoreRuns.EffectsWereScheduled | src/lib/mcp/local-checkpoint-store.js:197-252 | Whatever takes effect in a run is an operation some client called in it |
| StoreReplies.RegistryIsRead | src/lib/mcp/local-checkpoint-store.js:149-161 | An absent registry is an empty one; a present one is read exactly when it parses to an array of version-4 uuids, as that set |
| StoreReplies.WritesAreAnswered | src/lib/mcp/local-checkpoint-store.js:225-252 | By session, arguments and record alone: denied, corrupt, refused, a conflict exactly on a stale guard, or stored, and only the last changes anything |
| StoreReplies.ReadsAreAnswered | src/lib/mcp/local-checkpoint-store.js:219-224 | The same for reads: absent, corrupt, or the value and revision of the text |
| StoreReplies.SessionsAreAnswered | src/lib/mcp/local-checkpoint-store.js:197-213 | A new session is refused exactly by an unreadable registry, and else added under an id that was not there |
| StoreReplies.RunsAnswerWrites | src/lib/mcp/local-checkpoint-store.js:225-252 | In every run each write that does not fail has the answer that the sessions issued by then and the text its file holds then demand |
| StoreReplies.RunsAnswerReads | src/lib/mcp/local-checkpoint-store.js:219-224 | In every run so has each read |
| StoreReplies.RunsRefuseStaleWrites | src/lib/mcp/local-checkpoint-store.js:234-239 | In every run a stale write of a session that counts is a conflict, unless it fails |
| StoreReplies.FreshProjectsRegisterWhatTheyIssue | src/lib/mcp/local-checkpoint-store.js:149-158 | A project that begins without a registry has at every moment exactly the sessions issued in it, and refuses none |
| StoreProgress.SoloWritesSucceed | src/lib/mcp/local-checkpoint-store.js:225-252 | From any state, a due write made alone while its lock is free returns its revision and puts its text in the file, and changes nothing else |
| StoreProgress.SoloWritesAreRefused | src/lib/mcp/local-checkpoint-store.js:225-239 | From any state, a write that is not due returns its answer and changes no file |
| StoreProgress.SoloReadsSucceed | src/lib/mcp/local-checkpoint-store.js:219-224 | From any state a read made alone returns the answer of the files as they stand |
| StoreProgress.SoloSessionsSucceed | src/lib/mcp/local-checkpoint-store.js:197-213 | From any state with a usable registry and its lock free, createSession made alone returns the fresh id and adds it to the registry |
| LocalStore.CheckpointDir.Replace | src/lib/mcp/local-checkpoint-store.js:241-249 | The whole new file map: the target holds the text, the temporary name is gone, nothing else moved; on failure the target is untouched |
| LocalStore.CheckpointDir.EnsurePrivateRuntimeIgnore | src/lib/mcp/local-checkpoint-store.js:169-187 | The ignore file becomes its old text extended with what is missing, and nothing else changes |
| LocalStore.CheckpointDir.Register | src/lib/mcp/local-checkpoint-store.js:201-213 | Adding a session is the atomic object's step, for the id returned |
| LocalStore.CheckpointDir.CreateSession | src/lib/mcp/local-checkpoint-store.js:197-213 | One atomic create step, with the runtime files private; with free temporary names it returns the id unless the registry is there and unusable, and a project without one then holds just that id |
| LocalStore.CheckpointDir.Read | src/lib/mcp/local-checkpoint-store.js:219-224 | The reply is the one the session and the files demand, and the atomic object's |
| LocalStore.CheckpointDir.Write | src/lib/mcp/local-checkpoint-store.js:225-252 | State and reply are the atomic object's; the reply is the one session, arguments and record demand, a conflict exactly on a stale guard; only a due write over a taken temporary name may fail |
| Layout.RecordNamesAreInjective | src/lib/mcp/local-checkpoint-store.js:131-136 | Distinct skills have distinct files |
| Layout.LockNamesAreInjective | src/lib/mcp/local-checkpoint-store.js:135 | Distinct files have distinct locks |
| Layout.TempNamesAreNeverRead | src/lib/mcp/local-checkpoint-store.js:240 | No temporary name is one that is ever read |
| Layout.TempNamesKeepUuids | src/lib/mcp/local-checkpoint-store.js:240 | Distinct uuids give distinct temporary names, whatever the skills and process ids |
| PrivateIgnore.ExtendedIsSafe | src/lib/mcp/local-checkpoint-store.js:169-183 | The old text is a prefix and every private pattern becomes a line; every old line stays one, but for a carriage return at the end of an unended last line |
| PrivateIgnore.AnOpenReturnIsTaken | src/lib/mcp/local-checkpoint-store.js:176-181 | That carriage return is lost whenever a pattern has to be added |
| PrivateIgnore.ExtendedIsIdempotent | src/lib/mcp/local-checkpoint-store.js:176-178 | Running again changes nothing; nothing changes exactly when no pattern was missing |
| PrivateIgnore.ExtendedAddsOnlyPatterns | src/lib/mcp/local-checkpoint-store.js:176-181 | Nothing else is added: each line is an old one, a pattern that was missing, or empty |
| Text.SortedSet | src/lib/mcp/local-checkpoint-store.js:204-206 | Sorting a set of ids gives a strictly sorted listing of exactly those ids |
| CheckpointProvider.ValidateProvider | src/lib/mcp/checkpoint-store.js:39-69 | No error exactly when the provider meets the declarative contract, with what is required of it |
| CheckpointProvider.WriteRecord | src/lib/mcp/checkpoint-store.js:90-111 | The store is called exactly when the guard is well-formed and, if there is one, the store can swap, with the same arguments and demand; a throw is passed on, and a store that swaps must give a revision |
| CheckpointProvider.ReadRecord | src/lib/mcp/checkpoint-store.js:77-88 | The record, bare value, or contract error that the provider's answer stands for |
| CheckpointProvider.LocalWritesAreReportedExactly | src/lib/mcp/checkpoint-store.js:104-111 | Over the local store a write is reported as recorded, with its revision, exactly when it was committed, and as a conflict exactly when it met one |
| CheckpointProvider.LocalReadsAreReportedExactly | src/lib/mcp/checkpoint-store.js:80-87 | Over the local store a read comes through as the value and revision found, whatever the value holds |
| CheckpointProvider.LegacyReadsAreExactUnlessNested | src/lib/mcp/checkpoint-store.js:80-87 | A legacy store's bare checkpoint comes through unchanged if and only if it has no member called checkpoint |
| StrictServer.CreateSession | src/lib/mcp/server.js:240-247 | create_checkpoint_session adds exactly the id it returns, which the other two tools accept at once; with free temporary names it fails exactly on an unusable registry |
| StrictServer.WriteThrough | src/lib/mcp/checkpoint-store.js:90-111 | Wrapper and store together: recorded with the new revision or nothing changed, and a conflict exactly on a stale guard |
| StrictServer.WriteCheckpoint | src/lib/mcp/server.js:278-317 | write_checkpoint under strict validation: the first check that fails decides the refusal; past them it reports a conflict exactly on a stale guard, and succeeds exactly on acceptable arguments, storing the checkpoint |
| StrictServer.ReadThrough | src/lib/mcp/checkpoint-store.js:77-88 | A record comes back exactly for an issued session and a readable file, with its value and revision |
| StrictServer.ReadCheckpoint | src/lib/mcp/server.js:249-275 | read_checkpoint serves exactly when the stored value is absent, null or well-formed, and else says which check failed |
| StrictServer.RunsKeepRecordsAdmissible | src/lib/mcp/server.js:303-309 | However strict servers interleave and crash, if every write called passed the tool's admission, so does every record left behind |
| StrictServer.RunsReadAdmissible | src/lib/mcp/server.js:266-273 | Every checkpoint read in such a run is admissible, so none is refused when served |
| StrictServer.AnonymousIsAdmissible | src/lib/mcp/server.js:303-305 | The guards let in a checkpoint of no version and no skill, for any skill of the catalog |
| Mcp.ReadBody | src/index.js:734-759 | Too large exactly when the declared or actual length exceeds the limit; otherwise the exact concatenation; never more than the limit kept, and nothing read after an oversized declaration |
| Mcp.JoinChunks | src/index.js:752-758 | The offset loop copies the chunks, in order, into one buffer |
| Mcp.ConsumeBudget | src/index.js:769-787 | Ok exactly when every one of the tokens is granted; otherwise it stops at the first failure and says which kind |
| Mcp.BatchMutationsAreCounted | src/index.js:761-767 | A body makes at most as many mutations as were counted, and without one the namespace is unchanged |
| Mcp.MutationsAreThese | src/index.js:761-767 | The count is of exactly the messages that call one of the two mutating tools |
| Mcp.ErrorsHaveTheirCodes | src/lib/mcp/server.js:448-456 | What is no request is an invalid request under its id, a tool call without a tool name has invalid parameters, and neither touches the store |
| Mcp.OtherCallsArePlain | src/lib/mcp/server.js:339-440 | Every other call is answered by what needs no store |
| Mcp.BatchAnswersEachRequest | src/index.js:871-886 | One response in request order, under its own id, for each message that is not a valid notification; none exactly when all are; a well-formed request's id, null included, is echoed (sections 4.1 and 6 of JSON-RPC 2.0) |
| Mcp.Endpoint.CallCheckpointTool | src/lib/mcp/server.js:240-317 | The store calls of the three tools, made one by one on the worker, are the specified step and its mutation count |
| Mcp.Endpoint.HandleOne | src/lib/mcp/server.js:448-462 | Refusal, dispatch, tool call and notification, step by step, come to the specified handling |
| Mcp.Endpoint.HandleBatch | src/index.js:872-882 | The loop is the specified run over the batch |
| Mcp.Endpoint.Answer | src/index.js:871-886 | A single message is answered as a batch of one |
| Mcp.Endpoint.Admit | src/index.js:801-849 | The guards admit exactly such bodies, after as many granted tokens as mutations were counted; else 413 is size, 400 a body that is no message or batch, 429 a refused token, 503 an unusable limiter |
| Mcp.Endpoint.HandleMcp | src/index.js:789-887 | A body is served exactly when it fits, parses, is of permitted size and every mutation in it is paid for; else the store is untouched. Served, its answer is the batch's, and 202 exactly when every message is a valid notification |
| SessionToken.DecodeInvertsEncode | src/index.js:675-685 | Unpadded base64url (section 5 of RFC 4648): decoding undoes encoding for every byte string |
| SessionToken.CanonicalIsEncoded | src/index.js:705-706 | The canonical check accepts exactly the encoder's outputs |
| SessionToken.SextetsInvertBytes | src/index.js:675-685 | Re-encoding decoded text gives it back exactly when it has no stray low bits |
| SessionToken.SextetsAreTheBits | src/index.js:675-679 | The characters of one to three octets stand for their bits, high bits first (section 4 of RFC 4648) |
| SessionToken.SextetsByGroups | src/index.js:675-679 | Longer texts are taken three octets at a time |
| SessionToken.AlphabetIsTable2 | src/index.js:678 | The alphabet is that of Table 2 of RFC 4648 |
| SessionToken.AcceptedIffIssuedForm | src/index.js:697-716 | hasSession accepts exactly the texts id.MAC(id) of a version-4 uuid |
| SessionToken.IssuedTokensAreAccepted | src/index.js:688-716 | Every issued token survives sanitizeSession unchanged and is accepted |
| SessionToken.OneTokenPerId | src/index.js:697-716 | Each id has exactly one accepted token text |
| SessionToken.SanitizeIsExact | src/lib/mcp/server.js:467-474 | sanitizeSession lets through exactly a uuid or a text of token shape with nothing but white space around it, and gives it without |
| SessionToken.GateIsLawful | src/lib/mcp/server.js:467-474 | The token codec meets all that the hosted runs ask of it |
| Namespace.NamesAreInjective | src/index.js:136-137 | The six key families are pairwise disjoint and each is injective in its parts (also lines 394, 525, 551, 659) |
| Hosted.Worker.HandleVotePost | src/index.js:117-161 | The handler's puts and reply are the vote step of the runs |
| Hosted.Worker.RateLimit | src/index.js:391-407 | The handler's put and verdict are the specified limiter step |
| Hosted.Worker.ReadCheckpointFor | src/lib/mcp/server.js:249-275 | A value exactly within the catalog and under an accepted session, and else the refusal of the first failed check |
| Hosted.Worker.WriteCheckpointFor | src/lib/mcp/server.js:278-316 | Written exactly within the catalog, for an object, under an accepted session and up to 64 KiB, and else the refusal of the first failed check |
| Hosted.WritesAreAnswered | src/lib/mcp/server.js:278-316 | The same, with the one entry a write puts and its thirty days |
| Hosted.ReadsAreAnswered | src/index.js:717-721 | The same, with the live entry a read shows |
| Hosted.LeadsAreKept | src/index.js:521-554 | A submission that passes leaves its lead for a year; a limited one leaves nothing |
| HostedRuns.StepFrame | src/index.js:657-730 | A request changes no key but its own |
| HostedRuns.VotesInvariant | src/index.js:133-161 | Over every run: the count is the initial one plus the pairs accepted, and each pair's lock outlives its day |
| HostedRuns.VotesAreCountedOnce | src/index.js:104-161 | The count equals the initial count plus the number of distinct (UTC day, IP hash) pairs accepted, and no pair is accepted twice |
| HostedRuns.CoverageInvariant | src/index.js:391-407 | The counter lapses one TTL after the last pass and counts every pass of every window still open |
| HostedRuns.AtMostMaxPerWindow | src/index.js:521-537 | In any half-open window of the TTL at most MAX requests per IP hash pass, over every run of mixed requests (also lines 387-407) |
| HostedReplies.VotesAreAnswered | src/index.js:133-161 | In every run a vote is accepted if and only if its (day, IP hash) pair was not accepted before, and is told the initial count, one for each pair accepted before, and one for itself if accepted |
| HostedReplies.CounterIsStreak | src/index.js:391-407 | Until it lapses, the counter is the number of passes each within one TTL of the one before |
| HostedReplies.LimitsAreAnswered | src/index.js:521-537 | In every run a request is refused if and only if its limiter is open with its three (or five) passes; all others pass |
| HostedRuns.CheckpointEntry | src/index.js:717-730 | After any run a session's entry for a skill is that of the last write under both |
| HostedRuns.ReadsSeeTheirOwnWrites | src/lib/mcp/server.js:249-275 | An admitted read yields exactly the last unexpired value written under the same session and skill, else null |
| HostedRuns.OnlyIssuedSessionsReachTheStore | src/lib/mcp/server.js:256-316 | If no request presents the MAC of an id not signed before, in any spelling, every read or write carries the very token text createSession returned |
| HostedRuns.NothingIsReachedWithoutAKey | src/index.js:661-665 | Without a signing key no run issues a session or reaches the store |
| McpRuns.MessageIsItsRequest | src/lib/mcp/server.js:240-317 | A message does to the namespace what its store request does, and answers with its reply |
| McpRuns.BatchIsARun | src/index.js:872-882 | A batch leaves the namespace as the run of its requests in order does |
| McpRuns.ServingIsARun | src/index.js:789-887 | Bodies and other requests in any order are one run, so the results on votes, limits and checkpoints hold of messages |
| McpRuns.MessagesSeeTheirOwnWrites | src/lib/mcp/server.js:249-275 | After any bodies and other requests a read_checkpoint message answers with the last unexpired value written under its own session and skill |
| McpRuns.CreateMessages | src/lib/mcp/server.js:240-247 | create_checkpoint_session answers with the signed token of its uuid, which is accepted from then on |
| McpRuns.WriteMessages | src/lib/mcp/server.js:278-316 | A write message for an object of at most 64 KiB under an accepted session is stored and answered so |
| McpRuns.ReadMessages | src/lib/mcp/server.js:249-275 | A read message under an accepted session answers with the live value |
| McpRuns.WrittenMessagesAreRead | src/lib/mcp/server.js:249-316 | After a write message and any bodies and requests that store nothing else there, a read message within thirty days answers with the very checkpoint |
| Validator.ValidateEnvelope | src/lib/mcp/checkpoint-contract.js:148-307 | No error exactly on the checkpoints the declarative predicate WellFormed describes |
| Validator.ValidateHandoff | src/lib/mcp/checkpoint-contract.js:75-141 | No error exactly on good handoffs: header, producer, and what each type must carry |
| Validator.ValidateIdentity | src/lib/mcp/checkpoint-contract.js:56-73 | An error is added exactly when the identity is not good |
| Validator.ValidateChecks | src/lib/mcp/checkpoint-contract.js:125-137 | The seen-set scan adds an error exactly when an id is blank or repeats, a status is unknown, or a PASS verdict has a check that is not |
| Validator.ValidateAcceptance | src/lib/mcp/checkpoint-contract.js:120-138 | The same for the whole acceptance payload |
| Validator.ValidateProducer | src/lib/mcp/checkpoint-contract.js:90-102 | The same for the producer, against the checkpoint's skill where that is truthy |
| Validator.ValidateHeader | src/lib/mcp/checkpoint-contract.js:79-103 | The same for the fields all handoffs share |
| Validator.ValidateBody | src/lib/mcp/checkpoint-contract.js:105-138 | The same for the fields of each type |
| Validator.ValidateFields | src/lib/mcp/checkpoint-contract.js:155-172 | The same for required fields, version, status and skill, with falsy values skipping the last three |
| Validator.ValidateTimes | src/lib/mcp/checkpoint-contract.js:174-202 | The same for the four instants, their order, and the candidate a verified_at asks for |
| Validator.ValidateRows | src/lib/mcp/checkpoint-contract.js:205-220 | The same for the progress table |
| Validator.ValidateActions | src/lib/mcp/checkpoint-contract.js:225-241 | The same for next_actions, and that an in_progress checkpoint has some |
| Validator.ValidateBlockers | src/lib/mcp/checkpoint-contract.js:246-260 | The same for blockers |
| Validator.ValidateFindings | src/lib/mcp/checkpoint-contract.js:273-292 | The same for findings |
| Validator.ValidateHandoffs | src/lib/mcp/checkpoint-contract.js:294-304 | The same for the handoffs, and the scan for duplicate ids |
| Contract.ValidTimesAreOrdered | src/lib/mcp/checkpoint-contract.js:174-202 | A valid envelope was created no later than updated; its record instant, if given, is the update's; it was verified no later |
| Contract.ValidIsoTimesAreOrdered | src/lib/mcp/checkpoint-contract.js:40-46 | The same with the program's own instants, nothing being assumed of Date.parse |
| Guards.StatusThatPass | src/lib/mcp/checkpoint-contract.js:166-168 | Which status may stand in a valid checkpoint: a known one, in_progress only with a next action, or 0 or false |
| Guards.VersionsThatPass | src/lib/mcp/checkpoint-contract.js:158-165 | Which protocol version: a supported one, or 0 or false |
| Guards.SkillsThatPass | src/lib/mcp/checkpoint-contract.js:169-171 | Which skill, where one is asked for: that one, or 0 or false |
| Guards.ValidSkills | src/lib/mcp/checkpoint-contract.js:169-171 | Every valid checkpoint asked for by skill names it or has skill 0 or false |
| Guards.RowStatusesThatPass | src/lib/mcp/checkpoint-contract.js:212-214 | Which row status: a known one, or 0 or false |
| Guards.TablesThatPass | src/lib/mcp/checkpoint-contract.js:205-220 | Which progress tables keep a valid checkpoint valid, item by item |
| Guards.ActionsThatPass | src/lib/mcp/checkpoint-contract.js:225-241 | Which next actions, item by item, and some while in progress |
| Guards.BlockersThatPass | src/lib/mcp/checkpoint-contract.js:246-260 | Which blockers, item by item |
| Guards.FindingsThatPass | src/lib/mcp/checkpoint-contract.js:273-292 | Which findings, item by item, a verified one with its instant and candidate |
| Guards.ContractVersionsThatPass | src/lib/mcp/checkpoint-contract.js:82-84 | Which handoff contract version: 1.0, or 0 or false |
| Guards.CreationTimesThatPass | src/lib/mcp/checkpoint-contract.js:88-90 | Which handoff created_at: an instant, or 0 or false |
| Guards.TypesThatPass | src/lib/mcp/checkpoint-contract.js:85-87 | Which handoff type: a known one whose own fields are good, or 0 or false and then no type's fields at all |
| Guards.HandoffIdsThatPass | src/lib/mcp/checkpoint-contract.js:79-81 | Which handoff id: any that is not missing |
| Guards.AnonymousPasses | src/lib/mcp/checkpoint-contract.js:148-172 | A checkpoint of version 0 and skill false is valid for every skill |
| HandoffReader.GetCheckpointHandoff | src/lib/mcp/checkpoint-contract.js:318-339 | A handoff is returned exactly when the checkpoint is valid, the type known, and exactly one handoff has the type, id and artifact asked for; and it is that one |
| HandoffReader.OneMatchIsTheOne | src/lib/mcp/checkpoint-contract.js:326-335 | The filter leaves one handoff exactly where one index holds what was asked for |
| HandoffReader.RevalidationAgrees | src/lib/mcp/checkpoint-contract.js:336-338 | The second validation repeats the first, so it refuses nothing |
| HandoffReader.SelectedIsGood | src/lib/mcp/checkpoint-contract.js:318-339 | What is selected is a good handoff of the type asked for |
| HandoffReader.ReturnedHandoffsCarry | src/lib/mcp/checkpoint-contract.js:90-138 | A returned handoff names its producer, the checkpoint's own skill where that is text, and carries what its type promises: instant, candidate and verdict, or artifact, or sprint and verdict |
| HandoffReader.AcceptanceIsHonest | src/lib/mcp/checkpoint-contract.js:120-138 | A returned acceptance handoff has distinct non-blank check ids and says PASS only if every check does |
| HandoffReader.IdSelectsAtMostOne | src/lib/mcp/checkpoint-contract.js:326-335 | Selection by any id that is not falsy never meets more than one match |
| HandoffReader.DuplicatesThatPass | src/lib/mcp/checkpoint-contract.js:296-303 | A handoff may stand twice in a valid checkpoint if and only if its id is 0 or false, or an array or object |
| HandoffReader.FalsyIdsAreAmbiguous | src/lib/mcp/checkpoint-contract.js:326-335 | Where two handoffs match, as two of id 0 do, the reader returns none |
| HandoffReader.SelectionIgnoresOrder | src/lib/mcp/checkpoint-contract.js:318-339 | Success and result do not depend on the order of the handoffs |
| HandoffReader.WellFormedAnyOrder | src/lib/mcp/checkpoint-contract.js:294-304 | Nor does validity |
| References.DecodeInvertsEncode | src/lib/mcp/references.js:22 | Percent-decoding undoes percent-encoding for every ASCII text |
| References.NormalizeIsIdempotent | src/lib/mcp/references.js:7-17 | A normalised path is a reference path and its own normal form |
| References.NormalizeIsExact | src/lib/mcp/references.js:7-17 | Normalising decodes and lets exactly the reference paths through |
| References.PathsStayInside | src/lib/mcp/references.js:11-16 | Walked from any directory, each step of a normalised path goes down from its references directory |
| References.ParseInvertsPrint | src/lib/mcp/references.js:19-45 | A printed URI parses back to its skill and normalised path if and only if the path is not references/manifest.json, which prints as the manifest |
| References.ManifestNameIsTaken | src/lib/mcp/references.js:23-28 | That path is a valid one, so the exception is real |
| References.UrisAreInjective | src/lib/mcp/references.js:19-24 | Distinct resources have distinct URIs |
| References.CanonicalFormsAgree | src/lib/mcp/references.js:31-45 | Whatever parses, aliases included, has a canonical URI that parses to the same resource, with the same one exception |
| References.ParseIsExact | src/lib/mcp/references.js:31-45 | A URI parses to the manifest, a versioned path, or an unversioned alias of one, exactly where it reads as such |
| References.TypesAreThese | src/lib/mcp/references.js:58 | An entry's own type, else JSON for a .json path and Markdown for any other |
| References.BuildManifest | src/lib/mcp/references.js:47-72 | The seen-set loop and sort produce the specified listing; an invalid skill id is refused |
| References.ManifestIsExact | src/lib/mcp/references.js:47-64 | A manifest is sorted, has distinct paths, lists exactly the paths its entries normalise to, each from its first entry, and its URIs parse back |
| References.ManifestIgnoresOrder | src/lib/mcp/references.js:64 | Where the comparator tells texts apart, the listed paths do not depend on the order of the entries |
| UsageDedup.ReadingsAgree | reports/token-usage/generate.py:332-342 | The two scripts read a line's usage alike, if and only if it is not a given, all-zero breakdown of a non-zero total (parse.py lines 35-48) |
| UsageDedup.ReadingsAreTheCounts | reports/token-usage/parse.py:35-48 | A reading is the line's own counts, its writes by lifetime where they are told apart |
| UsageDedup.FirstBranchIsFirst | reports/token-usage/parse.py:65-66 | The branch kept is that of the first of the message's lines to name one |
| UsageDedup.ParseLines | reports/token-usage/parse.py:14-66 | The table holds, per message, the per-field maximum and the first line's metadata |
| UsageDedup.FieldMaxIsMax | reports/token-usage/parse.py:60-64 | The fold is the greatest value of each field over the message's lines, and attained |
| UsageDedup.FieldMaxIgnoresOrder | reports/token-usage/parse.py:49-66 | It depends on neither the order nor the repetition of lines |
| UsageDedup.ParsesAgree | reports/token-usage/parse.py:14-66 | Two parses of the same readings agree on messages and tokens |
| UsageDedup.KeepLargest | reports/token-usage/generate.py:306-359 | The table holds, per message, the first usage of the largest sum |
| UsageDedup.LargestIsALine | reports/token-usage/generate.py:354-359 | What is kept is one of the message's lines and none sums to more |
| UsageDedup.TablesAgree | reports/token-usage/generate.py:296-305 | For a message of parse.py's table: generate.py never counts more tokens, and the same usage if and only if one line, read alike by both, carries every maximum |
| UsageDedup.TablesHaveTheseMessages | reports/token-usage/generate.py:317-356 | generate.py's table also holds exactly the messages no line of which carries a usage, without tokens; parse.py (lines 30-32) skips them |
| UsageDedup.TablesCanDiffer | reports/token-usage/generate.py:354-359 | Two lines of one message that count three tokens to parse.py and two to generate.py |
| Ledger.Accumulators.Add | reports/token-usage/aggregate.py:177-185 | Adding a row changes one accumulator, by that row |
| Ledger.TotalIsFigureByFigure | reports/token-usage/aggregate.py:171-185 | Each figure of a total is the sum of that figure over the rows; unpriced rows are counted and cost nothing |
| Ledger.GroupBy | reports/token-usage/aggregate.py:204-232 | The grouping loop is the specified fold |
| Ledger.GroupsAreShares | reports/token-usage/aggregate.py:204-232 | Each group is the sum of exactly the rows of its key, and there is one for each key that occurs |
| Ledger.GroupingsConserve | reports/token-usage/aggregate.py:199-232 | For every key, so for all five groupings: the groups sum to the same tokens, entries and unrounded cost as the total |
| Ledger.CoarseGroupsSumFineOnes | reports/token-usage/aggregate.py:225-232 | Where one key is a function of another, as the dominant PR is of the session, a coarse group is the sum of the fine ones it takes together |
| Ledger.FoldTiers | reports/token-usage/generate.py:846-868 | The tier fold, in any enumeration order, is the specified one |
| Ledger.FoldIsExact | reports/token-usage/generate.py:846-868 | The tier fold conserves everything, shows each large group as it was, and fewer than five only under other |
| Ledger.FoldWeeks | reports/token-usage/report.py:191-204 | The weekly fold is the specified one (also generate.py lines 873-885) |
| Ledger.ReplacementIsExact | reports/token-usage/report.py:196-204 | The weekly fold conserves everything if and only if no large group is itself called other while small ones exist |
| Ledger.MergeAssociates | reports/token-usage/aggregate.py:143-145 | Merging run by run is merging all at once, and merging the same rows again changes nothing |
| Ledger.RunsLoseNoRow | reports/token-usage/aggregate.py:139-145 | After any number of runs each row is as the last run to have it gave it, or as the first ledger did; none is lost |
| Ledger.LastRowIsLast | reports/token-usage/aggregate.py:139-145 | The reference for the last row misses no run |
| Ledger.MergedGroupingsConserve | reports/token-usage/aggregate.py:139-232 | Every grouping of a merged ledger sums to the fresh and the preserved rows, each counted once |
| Releases.WindowsPartitionTime | reports/token-usage/generate.py:282-293 | For sorted times every moment from the first release on lies in exactly one half-open window, and a later one in no earlier window |
| Releases.ChangelogReleaseFor | reports/token-usage/generate.py:282-293 | The window found holds the moment, and the final fall-through is never reached |
| Releases.ReleaseFor | reports/token-usage/generate.py:251-260 | Walking the tags finds the same window |
| Releases.ReleaseOf | reports/token-usage/aggregate.py:75-81 | The first release at or after the moment, or none exactly when all are before it |
| Releases.TowardFollowsLive | reports/token-usage/aggregate.py:75-81 | The ledger's release is the one after the live one, except at the very moment of a release |
| Releases.InferPr | reports/token-usage/generate.py:226-237 | A merged PR exactly when one is within the limit, and then the first of the nearest |
| Releases.InferWithinIsEarliest | reports/token-usage/aggregate.py:52-57 | A PR exactly when some merged PR's window covers the moment, and then the first to merge, lowest number first |
| Releases.InferenceIgnoresOrder | reports/token-usage/aggregate.py:46-57 | Where numbers are distinct, the order of the PRs does not matter |
| Pricing.CostsAddUp | reports/token-usage/aggregate.py:26-33 | The messages of one model cost together exactly what their summed tokens cost |
| Pricing.MillionPrices | reports/token-usage/aggregate.py:13-33 | A million tokens of each bucket cost the input price, the output price, a tenth, one and a quarter, and two of the input price |
| Reconcile.AbsorbDrift | reports/token-usage/report.py:153-164 | It fails exactly beyond five cents or with no bucket to use; otherwise the sum is exact, only the largest bucket moved, by at most five cents, and all amounts are non-negative if and only if the others were and it covers the drift |
| Reconcile.FewModelsReconcile | reports/token-usage/report.py:153-158 | With at most ten models, rounding alone never makes it fail |
| Reconcile.AmountsCanGoNegative | reports/token-usage/report.py:160-163 | Three models at $0.00496 are a case where it does not cover it |

## Left out

- Spawning `flock` or `lockf`, platform detection, timers and waiting for a lock: a lock is an atomic acquire and release, and a busy one is a failure; progress is proved for a client that runs alone while its lock is free.
- SHA-256, HMAC, uuid generation, JSON text and `Date.parse` internals are functions with the assumptions above; the calendar is not modelled.
- Concurrent or eventually consistent behaviour of the hosted namespace, which the source does not promise.
- Network calls, asset serving, CORS and CSP headers, logging, routing intents, feature flags and the site.
- Error texts and warnings of the validators: an error is the name of the field at fault, and warnings are dropped.
- Tools, prompts and resources that need no store are one function of the call; a worker with no NOTIFY namespace bound is not modelled.
- Percent escapes of bytes above 127 decode to None at once: no path with one is ever normalised, whether it is malformed or not.
- Characters outside the url alphabet in base64 text: the token check refuses them before it decodes.
- Non-integer or junk text in a limiter's counter; the limiters only store integers, and initial counters are asked to be non-negative.
- Byte sizes and digests copied into a manifest entry.
- UsageDedup.ParseLines: takes assistant lines with their keys; finding files, skipping other lines and naming messages or sessions without an id are not modelled, nor are the tier and sidechain fields.
- Rounding in the ledger apart from the cents step: costs are unrounded reals.
- Python discovery, git and gh subprocesses, markdown output, the values in the price table, week numbering and the choice of a session's dominant branch; the grouping results hold for every key.
- StoreRuns.RunsLoseNoUpdate: says nothing about what happened between a read and its write, only about values, since a revision is a content hash and may recur.
- Mcp.ReadBody: counts what the chunk list keeps; the chunk that goes over the limit is dropped at once, and the joined copy is not counted.
