# Fireball session service: a verified model

A Dafny 4.11 model of the stateful cores of the Fireball session orchestrator, with proofs of what they keep in every run.
Check it with `dafny verify dfyconfig.toml`.

The cores, each with the modules that model it:

- **The session service** (`SessionModel`, `SessionService`, and the theorems in `SessionInvariant`, `SessionCredentials`,
  `SessionProvenance`, `SessionQuota`, `SessionRevocation`, `SessionExpiry`, `SessionAnswers`). Every public method is cut at
  each await. A suspended method is a continuation in a bag, one event runs one uninterrupted segment, and a run is any
  sequence of events, so the theorems hold for every interleaving of any number of method calls. The class
  `SessionService` has the maps of the original as fields and one method for each segment, proved equal to the specification
  function of that segment.
- **The container lifecycle** (`DockerLifecycle`, `DockerEngineRuntime`, `DockerReconcile`) and, with the service on top of
  it, the whole system (`NoSilentOrphan`).
- **Tab control across two languages** (`TabWire`, `TabUrls`, `TabController`, `TabAnswers`, `TabPromises`, `TabDriver`,
  `TabExchange`, `TabRuntime`, `TabCoupling`): the JavaScript controller and driver, the C++ table and command handler, and
  the text lines between them. `TabPromises` has the chain of promises on which the controller serialises its
  operations, with nothing else to keep them apart, and proves that it behaves as the queue of `TabController`.
- **The bubblewrap argument rewriter** (`BwrapArguments`): the C loop over NUL-terminated tokens with its bounded output
  array, against a specification on token sequences.
- **The signaling relay** (`SignalingRelay`, `SignalingEnds`, `SignalingObjects`, `SignalingRegistry`, `SignalingLease`):
  connector, gateway, connection registry and the lease of the in-container proxy.
- **The TURN server list** (`TurnServers`): acceptance, printing, and reading back.
- **The nginx installer** (`NginxInstaller`): any number of installers of one target, interleaved at each call.

Where the source changes state step by step, a class or a loop does so here, and its `ensures` tie the new state to a pure
function of the old one; the theorems are about those functions. Library behaviour (URL parsing, UTF-8, address
recognition, SHA-256, random values, clocks) enters as parameters; each assumption about it is a predicate named `Sane`, or
a condition on an event in `Enabled`, `Ready` or `Possible`.

Four things the proofs found out about the code, each with its exact condition:

- Two overlapping burns of one session can put a deleted session back into the map and so exceed the quota.
  `QuotaBreaksExactly` gives the exact step, `OverlappingBurnsBreakQuota` a whole run.
- If a second token, sent while the first is being checked, is accepted as well, the client can get two `ready` frames and a
  registration can be left behind. `ReadyTwiceExactly` and `LeftRegisteredExactly` say which runs, `TwoTokensTwoReadies` is one.
- SHUTDOWN is sent under the number 1, so its answer can resolve a first command whose line was lost.
  `MisresolvesExactly` gives the exact step, `ShutdownHazard` the exact condition when SHUTDOWN is sent, and
  `ShutdownBorrowsNumberOne` a whole run.
- The installer reports "restored to its previous state" for a target that was a dangling symbolic link, which it has in fact
  removed, and for one with set-id or sticky bits, which it has dropped. `AnnouncedTruly` says that there is no other case.

## Model

| member | source | states |
|---|---|---|
| SessionKeys.TextIsInjective | src/domain/session-service.ts:223-225 | the string key identifies tenant and session, because tenant ids have no colon |
| SessionInvariant.StructureStep | src/domain/session-service.ts:89-116 | every event keeps: ids are handed out once, a reservation lasts exactly as long as its one pending create, records and suspended calls name settled sessions |
| SessionCredentials.CredentialsStep | src/domain/session-service.ts:156-250 | every segment of every method keeps the three credential maps in agreement |
| SessionCredentials.CredentialAgreement | src/domain/session-service.ts:89-116 | in every run a session has credentials exactly while it is active, tickets and tokens are exact inverse indexes of them, and every session out of active has had its relays told to close |
| SessionCredentials.CredentialsAlways | src/domain/session-service.ts:89-250 | the same from the empty service on: it holds in every reachable state |
| SessionProvenance.OneUseAlways | src/domain/session-service.ts:156-204 | over whole runs each ticket is exchanged at most once and each token authorised at most once, every grant goes back to a ticket issued for that very session and tenant, and grants <= tokens <= tickets |
| SessionProvenance.OneUseEver | src/domain/session-service.ts:89-204 | the same in every reachable state |
| SessionProvenance.LedgersRecordOutcomes | src/domain/session-service.ts:173-204 | the ledgers the counts speak of grow by exactly the successful results, nothing else |
| SessionQuota.AdmissionIsExact | src/domain/session-service.ts:252-287 | the host admits if and only if the slots in use are fewer than the smallest of the four per-resource limits, and that is at least 1 |
| SessionQuota.AllocationIsUniform | src/domain/session-service.ts:273-287 | the four sums over both maps are the slot count times the quota, in every reachable state |
| SessionQuota.QuotaAlways | src/domain/session-service.ts:206-221 | when burns of one session do not overlap, no tenant exceeds its limit and the summed resources fit the host, in every run |
| SessionQuota.QuotaEver | src/domain/session-service.ts:71-116 | the same from the empty service on |
| SessionQuota.QuotaBreaksExactly | src/domain/session-service.ts:214-219 | a step breaks the quota if and only if a failed burn writes back a session that is no longer in the map while the host or the tenant is full |
| SessionQuota.OverlappingBurnsBreakQuota | src/domain/session-service.ts:206-221 | a run with two overlapping burns that exceeds the quota |
| SessionRevocation.LeavesActive | src/domain/session-service.ts:206-250 | a session leaves active by the synchronous part of its burn or a stopped inspection of its current record and in no other way, and is then gone |
| SessionRevocation.RevocationIsFinal | src/domain/session-service.ts:238-250 | a gone session is gone in every continuation: no ticket, no token, and no grant but for authorisations whose inspection had already come back |
| SessionRevocation.DoomedThrows | src/domain/session-service.ts:125-204 | every exchange, authorisation, rotation or tab call suspended in the inspection of a gone session ends by throwing, whatever happens meanwhile |
| SessionRevocation.ExchangeBegins | src/domain/session-service.ts:156-168 | a presented ticket reaches the inspection if and only if it is live and unexpired, and is dead afterwards either way |
| SessionRevocation.AuthorizeBegins | src/domain/session-service.ts:186-197 | the same for a token |
| SessionExpiry.LifetimesRun | src/domain/session-service.ts:176-180 | with a clock that does not go back, no live credential ever has longer to live than its own lifetime, and none is extended |
| SessionExpiry.ExpiresInTime | src/domain/session-service.ts:165-167 | once its lifetime has passed, a ticket or token that was live is refused, whatever happened in between |
| SessionExpiry.ExpiryEver | src/domain/session-service.ts:165-193 | the same from the empty service on, with no hypothesis about the state: whatever is live at any point of any run is refused once its lifetime has passed |
| SessionRevocation.RotationReplaces | src/domain/session-service.ts:297-314 | right after a rotation the returned ticket is the only live one of its session and no token is live |
| SessionRevocation.RotationLaw | src/domain/session-service.ts:156-184 | in every later state a live token of the session was minted from that ticket, a later one, or one an exchange had already taken when the rotation ran |
| SessionRevocation.InFlightExchangeSurvives | src/domain/session-service.ts:168-184 | an exchange that has taken its ticket, from the start of its inspection on, mints its token when it resumes if and only if the session is still active, whatever rotations run meanwhile |
| SessionRevocation.ExchangeTakesOff | src/domain/session-service.ts:156-168 | an exchange that gets to its inspection is in flight in that sense from then on, with the session's credentials object noted |
| SessionAnswers.AnswersAreReported | src/domain/session-service.ts:118-204 | in every run an authorisation and a tab call hand out the very runtime that the engine returned when that session was created, and a view shows it, with a failure only in the words of an inspection or a cleanup of that session |
| SessionAnswers.ResumedAnswers | src/domain/session-service.ts:118-204 | whatever runs while it waits, a call whose session is active at the end comes back with the session as it is in the map then, its runtime, a new ticket, or the authorisation for it; otherwise no ticket is issued |
| SessionAnswers.CallsWait | src/domain/session-service.ts:118-197 | reads, exchanges and authorisations wait so, under the key they asked for or their credential stands for |
| SessionAnswers.CreateRefusedExactly | src/domain/session-service.ts:252-271 | a create is refused if and only if its tenant has its number of sessions or the host can hold no more, and then takes nothing |
| SessionAnswers.CreateEnds | src/domain/session-service.ts:93-116 | a create ends with an active session of that runtime and a live ticket for the configured time, or with nothing; the reservation is released either way |
| SessionAnswers.NotFoundExactly | src/domain/session-service.ts:118-134 | reads and burns are refused as not found if and only if the session is not in the map |
| SessionAnswers.BurnAnswers | src/domain/session-service.ts:206-221 | from its start a burnt session is burning without credentials; it ends out of the map, or back in it as failed with its runtime |
| SessionAnswers.InspectionAnswers | src/domain/session-service.ts:238-250 | an inspection ends its call if and only if the engine could not say, or the session has gone |
| SessionService.SessionService.CurrentAllocation | src/domain/session-service.ts:273-287 | the two loops over the maps yield the specified sums, in whatever order the entries come |
| SessionService.SessionService.Reserve | src/domain/session-service.ts:252-271 | reserves exactly when tenant and host admit, and changes nothing otherwise |
| SessionService.SessionService.BeginCreate | src/domain/session-service.ts:89-93 | the segment before the first await, against its specification |
| SessionService.SessionService.RuntimeCreated | src/domain/session-service.ts:93-116 | the segment after it, with the reservation released on both ways out |
| SessionService.SessionService.BeginExchange | src/domain/session-service.ts:156-168 | the synchronous part of an exchange, the ticket deleted before anything is checked |
| SessionService.SessionService.BeginAuthorize | src/domain/session-service.ts:186-197 | the synchronous part of an authorisation |
| SessionService.SessionService.Inspected | src/domain/session-service.ts:238-250 | the return from an inspection, with the check that the record is still the same object |
| SessionService.SessionService.Continue | src/domain/session-service.ts:118-204 | the rest of whichever method was waiting |
| SessionService.SessionService.BeginBurn | src/domain/session-service.ts:206-215 | the synchronous part of a burn: credentials revoked, relays told, record replaced |
| SessionService.SessionService.Destroyed | src/domain/session-service.ts:214-221 | the end of a burn, on both ways out |
| SessionService.SessionService.RevokeCredentials | src/domain/session-service.ts:289-295 | deletes exactly what the session's credentials hold from both indexes |
| SessionService.SessionService.RotateSignalingTicket | src/domain/session-service.ts:297-314 | replaces whatever was live by one new ticket, or does nothing when there are no credentials |
| DockerLifecycle.AdvanceKeeps | src/runtime/docker-engine-runtime.ts:82-205 | whatever the engine answers, a create or destroy knows what is left of its session's resources and touches no other session's |
| DockerLifecycle.CreateIsTransactional | src/runtime/docker-engine-runtime.ts:82-188 | a create that fails without reporting a failed rollback leaves the engine exactly as it was |
| DockerLifecycle.DestroyRemovesAll | src/runtime/docker-engine-runtime.ts:190-205 | a destroy that succeeds leaves nothing of its session and all of the others |
| DockerLifecycle.CreateSuccessIsEarned | src/runtime/docker-engine-runtime.ts:148-162 | a create that succeeds has added its network and its container only, heard last that it is healthy with its port published, and polled within the startup budget |
| DockerLifecycle.CreateSucceedsExactly | src/runtime/docker-engine-runtime.ts:82-162 | a create succeeds with a container if and only if network, container and start are accepted, its health is `starting` fewer times than the startup budget, and then healthy with the port published |
| DockerLifecycle.DestroyTriesBoth | src/runtime/docker-engine-runtime.ts:190-205 | both deletions are always tried, and success means that neither was refused |
| DockerLifecycle.RollbackTriesBoth | src/runtime/docker-engine-runtime.ts:163-184 | so does the rollback, and it reports a failure if and only if one was refused |
| DockerEngineRuntime.DockerEngineRuntime.Create | src/runtime/docker-engine-runtime.ts:82-188 | the code with its flags plays that job on the answers it gets, so the transaction law holds of it |
| DockerEngineRuntime.DockerEngineRuntime.WaitForHealthy | src/runtime/docker-engine-runtime.ts:395-412 | the polling loop ends healthy with a published port, or in the rollback, and changes nothing in the engine |
| DockerEngineRuntime.DockerEngineRuntime.Destroy | src/runtime/docker-engine-runtime.ts:190-205 | both deletions are tried and both refusals count |
| DockerReconcile.Reconciler.Reconcile | src/runtime/docker-engine-runtime.ts:238-271 | nothing that is not this instance's is touched; success leaves nothing of this instance, in particular nothing with its labels and an id of 64 hexadecimal digits, and reports the true counts; a reported failure counts what is left |
| DockerReconcile.Reconciler.ReconcileContainers | src/runtime/docker-engine-runtime.ts:242-255 | after the loop the managed containers left are as many as the refusals, the removed ones as many as the rest |
| DockerReconcile.ManagedExactly | src/runtime/docker-engine-runtime.ts:468-485 | what is removed, in full: the two labels with this instance's id, and an id of 1 to 128 harmless characters |
| DockerReconcile.InstancesApart | src/runtime/docker-engine-runtime.ts:468-485 | orchestrators with different instance ids never remove each other's resources |
| NoSilentOrphan.SystemKeeps | src/domain/session-service.ts:89-221 | every service segment, engine answer and disappearance keeps service claims, running jobs and engine contents in accord |
| NoSilentOrphan.NoOrphanEver | src/runtime/docker-engine-runtime.ts:82-205 | at every point of every run each container and network belongs to a session in the map, a create holding its reservation, or a create that reported a failed rollback, overlapping burns included |
| NoSilentOrphan.BurnIsFinal | src/domain/session-service.ts:206-221 | a burn that succeeds has left nothing of its session in the engine, and nothing of it ever comes back |
| NoSilentOrphan.OneContainerPerSession | src/domain/session-service.ts:93-101 | the only container a session in the map can have is the one its record names |
| TabWire.HexRoundTrip | session/fireball-session-runtime.cc:694-713 | decoding yields a byte string if and only if it is NUL-free, of 1 to 4096 bytes, and the text is its canonical encoding |
| TabWire.DecodeHexLoop | session/fireball-session-runtime.cc:694-707 | the index loop computes that decoding |
| TabWire.RequestFits | session/fireball-session-runtime.cc:656-662 | a request number is valid on the wire if and only if it is between 1 and 10^16 - 1, so every safe integer is |
| TabWire.CommandRoundTrip | session/tab-control.mjs:164-183 | every line the driver prints is read by the runtime as the same command with the same number |
| TabWire.ParsedIsPrinted | session/fireball-session-runtime.cc:582-619 | a line the runtime reads as a command has exactly the fields the driver prints for it |
| TabWire.PrintInjective | session/tab-control.mjs:168-176 | two equal lines are the same command under the same number |
| TabWire.ReplyRoundTrip | session/tab-control.mjs:192-196 | the reply pattern matches exactly the renderings of valid replies, each in one way |
| TabWire.ErrorAccepted | session/fireball-session-runtime.cc:623-654 | an error line is taken as the refusal of its request, unless its code has one or two code characters, which the pattern does not match |
| TabUrls.EncodesNormalized | session/tab-control.mjs:218-242 | normalising twice changes nothing, except that a serialised URL of more than 4096 bytes is refused the second time |
| TabUrls.AliasRoundTrip | session/tab-control.mjs:244-246 | the public home alias is undone for every normalised URL |
| TabUrls.RefusedExactly | session/tab-control.mjs:218-238 | which addresses are refused, in full: any but the home page that is over 4096 bytes, does not parse, is neither http nor https, has a user name or password, or has no host; what is taken is the parser's serialised form |
| TabController.Linearizability | session/tab-control.mjs:39-105 | for every run of the queue of operations, results and tabs are those of the sequential specification in submission order; `TabPromises.Linearizability` is the same of the code's own chain |
| TabController.FailedIsNoOp | session/tab-control.mjs:39-93 | an operation that fails leaves the tabs as they were |
| TabController.ChainOkRun | session/tab-control.mjs:39-93 | in every run there are between one tab and the limit, with distinct ids and an active one among them, and the call in the driver fits them |
| TabController.OneActive | session/tab-control.mjs:35-37 | the list shows exactly one active tab |
| TabAnswers.CreateAsks | session/tab-control.mjs:39-57 | a create is refused at the limit, then for such an address, and otherwise asks the driver to open that form under the new id |
| TabAnswers.NavigateAsks | session/tab-control.mjs:70-80 | a navigation is refused for a tab that is not there, then for such an address, and otherwise asks the driver to load that form |
| TabAnswers.ActivateAsks | session/tab-control.mjs:59-68 | an activation is refused for a tab that is not there, and asks the driver only for a tab that is not active |
| TabAnswers.RemoveAsks | session/tab-control.mjs:82-93 | a removal is refused for a tab that is not there, then for the last one, and otherwise falls back to the active tab, or to the first other one |
| TabAnswers.CreateRecords | session/tab-control.mjs:46-57 | a tab that was opened comes last under its public address, is active, and is returned so |
| TabAnswers.ActivateRecords | session/tab-control.mjs:59-68 | an activation changes which tab is active and nothing else |
| TabAnswers.NavigateRecords | session/tab-control.mjs:70-80 | a navigation changes the address of its tab and nothing else |
| TabAnswers.RemoveRecords | session/tab-control.mjs:82-93 | a removal takes its tab out, keeps the order of the others, and changes the active tab only when it was that one |
| TabPromises.OneAtATime | session/tab-control.mjs:101-105 | on the chain of promises at most one operation is in the driver, and none starts before all earlier ones have settled |
| TabPromises.ShapeStep | session/tab-control.mjs:101-105 | every submission, callback, driver completion and caught rejection keeps the shape of the chain |
| TabPromises.AlwaysReleased | session/tab-control.mjs:101-105 | no rejection blocks the chain: when the driver is free, the first waiting operation can run once the result before it, fulfilled or rejected, has been caught |
| TabPromises.RunRefines | session/tab-control.mjs:101-105 | every run of the promises is a run of the queue |
| TabPromises.Linearizability | session/tab-control.mjs:39-105 | for every interleaving of submissions, promise callbacks and driver completions: at most one operation in the driver, starts and ends in submission order, results and tabs those of the sequential specification in that order |
| TabPromises.TabsAlwaysOk | session/tab-control.mjs:39-93 | in every such run there are between one tab and the limit, with distinct ids and the active one among them |
| TabPromises.PromisesTell | session/tab-control.mjs:101-105 | in every run a caller's promise is rejected exactly when its operation failed |
| TabPromises.TabController.Serialize | session/tab-control.mjs:101-105 | chains the operation on the current `#operation` and becomes it |
| TabPromises.TabController.RunOperation | session/tab-control.mjs:39-93 | the callback of an operation up to its driver call, with its lookup and fallback loops, against the specification |
| TabPromises.TabController.DriverSettled | session/tab-control.mjs:46-92 | an operation after its driver call, and the settling of its result |
| TabPromises.TabController.ResultCaught | session/tab-control.mjs:101-105 | the caught form of a result settles, whichever way the result did |
| TabPromises.TabController.List | session/tab-control.mjs:35-37 | the list is the specified one at any moment, also between the parts of an operation |
| TabDriver.ReplyMatching | session/tab-control.mjs:108-215 | over every run with lost, late and missing lines: each command is outstanding or settled once, resolves only if the runtime executed that very command, is refused only if it executed and failed, and none is executed twice; excepted is the resolution of number 1 when SHUTDOWN was sent before that number was settled |
| TabDriver.MisresolvesExactly | session/tab-control.mjs:185-203 | a step resolves a command that was not done if and only if it reads the answer to SHUTDOWN while number 1 is outstanding and not done |
| TabDriver.ShieldedForever | session/tab-control.mjs:160-162 | if number 1 has been settled when SHUTDOWN is sent, everything resolved in the rest of any run has been done, number 1 included |
| TabDriver.ShutdownHazard | session/tab-control.mjs:160-162 | at the moment SHUTDOWN is sent, some continuation resolves a command 1 that was not done if and only if number 1 is not used yet, or is outstanding and not done |
| TabDriver.ShutdownBorrowsNumberOne | session/tab-control.mjs:160-162 | a run in which the answer to SHUTDOWN resolves command 1, which was never executed |
| TabDriver.NothingOutlivesFailure | session/tab-control.mjs:205-215 | exit, child error and malformed output reject everything outstanding |
| TabDriver.LateReplyIgnored | session/tab-control.mjs:197-198 | a reply to a request no longer outstanding changes nothing |
| TabExchange.VerdictSettles | session/tab-control.mjs:185-203 | a verdict that arrives while its request is outstanding settles that request by it, and nothing else |
| TabExchange.Undisturbed | session/tab-control.mjs:164-203 | an exchange that nothing disturbs: the command sent is executed once on the table as it was, and its promise resolves if and only if it was done |
| TabExchange.GivenUp | session/tab-control.mjs:170-181 | a timeout and a failed write settle their own outstanding request so, and touch nothing else |
| TabExchange.ReadyExactly | session/tab-control.mjs:185-191 | the driver becomes ready by READY with its own initial tab and by no other line, and stays unready only for replies |
| TabExchange.ShutdownIsObeyed | session/fireball-session-runtime.cc:582-600 | SHUTDOWN ends the main loop, is answered, and leaves the tabs alone |
| TabExchange.RefusedForReason | session/fireball-session-runtime.cc:277-463 | a command is refused with the code of the first reason that applies, is done if and only if none does, and then changes exactly this of the table |
| TabDriver.NativeTabDriver.Issue | session/tab-control.mjs:164-183 | the line and the new outstanding request, or nothing at all once the child has exited |
| TabDriver.NativeTabDriver.OnLine | session/tab-control.mjs:185-203 | a line settles its own request, readiness, or everything |
| TabDriver.NativeTabDriver.FailAll | session/tab-control.mjs:205-215 | the loop rejects exactly what was outstanding |
| TabRuntime.LineKeepsTable | session/fireball-session-runtime.cc:277-463 | no line, well formed or not, takes the native table out of one to four tabs with an active one |
| TabRuntime.ReplyIsAccepted | session/fireball-session-runtime.cc:582-625 | the reply to a command is accepted by the driver for the same request, is OK if and only if the command was done, and otherwise the table is unchanged |
| TabRuntime.RejectionIsAccepted | session/fireball-session-runtime.cc:582-625 | a numbered line that is not a command changes nothing, does not quit, and is answered by an error the driver accepts for that number |
| TabRuntime.NativeRuntime.HandleCommand | session/fireball-session-runtime.cc:582-619 | the handler does what the specification of a line says, exit code and main loop included |
| TabRuntime.NativeRuntime.Create | session/fireball-session-runtime.cc:277-370 | insertion and removal again when the media pipeline fails amount to no change |
| TabRuntime.NativeRuntime.Remove | session/fireball-session-runtime.cc:438-463 | the guards in their order, and the switch to the fallback |
| TabRuntime.NativeRuntime.CheckUuid | session/fireball-session-runtime.cc:665-674 | the loop decides the version 4 form |
| TabCoupling.Coupling | session/fireball-session-runtime.cc:277-463 | without timeout or exit, whenever no command is under way both tables hold the same one to four tabs, URLs up to the home alias and active tab included |
| TabCoupling.RefusalsAreHonest | session/tab-control.mjs:39-93 | along every run the line under way is the controller's command, and it is refused only for a URL the native parser rejects or a media failure |
| TabCoupling.NeverMisjudged | session/fireball-session-runtime.cc:411-463 | no command that fits the controller's tabs is refused as missing, over the limit, last tab or bad fallback; the code of each refusal |
| TabCoupling.LimitsMeetAtFour | session/tab-control.mjs:20-24 | with a controller limit above 4 the native limit is hit exactly at four tabs |
| TabCoupling.LateOkDiverges | session/tab-control.mjs:170-173 | a command done after the controller gave it up leaves the tables apart, except a navigation to the address the tab had |
| BwrapArguments.SplitThenEncode | session/fireball-bwrap-wrapper.c:54-72 | NUL-splitting loses nothing |
| BwrapArguments.EncodeThenSplit | session/fireball-bwrap-wrapper.c:54-72 | and reads back every list of tokens |
| BwrapArguments.AcceptableExactly | session/fireball-bwrap-wrapper.c:74-165 | the policy in full: token lists of at most a mebibyte without `--args`, `--pidns`, `--cap-add`, `--cap-drop` and `--not-a-security-boundary`, with `--unshare-pid`, `--proc /proc`, `--seccomp` and its descriptor, and `--unshare-uts` exactly once each |
| BwrapArguments.AcceptedRewrite | session/fireball-bwrap-wrapper.c:98-164 | the rewrite of an accepted list is that list with its one `--unshare-pid` cut out and its one `--proc /proc` replaced in place |
| BwrapArguments.RewrittenIsClean | session/fireball-bwrap-wrapper.c:98-164 | accepted output is well formed and holds none of the five refused options |
| BwrapArguments.RewrittenKeepsSeccomp | session/fireball-bwrap-wrapper.c:137-153 | the seccomp option is still followed by its numeric descriptor |
| BwrapArguments.RewriteTheorem | session/fireball-bwrap-wrapper.c:74-165 | accepted output is 5 bytes shorter, splits into the rewritten tokens, holds none of the five refused options any more than its input, and is itself always rejected |
| BwrapArguments.AppendToken | session/fireball-bwrap-wrapper.c:44-52 | appends exactly when it fits, and writes nothing past what it appended |
| BwrapArguments.NextToken | session/fireball-bwrap-wrapper.c:54-72 | finds the next token, or fails only where no list of tokens can be read |
| BwrapArguments.RewriteWebkitArguments | session/fireball-bwrap-wrapper.c:74-165 | the byte loop succeeds if and only if the input meets the policy and the result fits, yields the rewritten tokens, lets none of the five refused options in or out, and never writes past the capacity |
| BwrapArguments.RewriteInAllocatedBuffer | session/fireball-bwrap-wrapper.c:263-282 | with 64 bytes to spare no input that meets the policy is rejected for space |
| BwrapArguments.NumericDescriptor | session/fireball-bwrap-wrapper.c:33-42 | the digit loop decides the descriptor form |
| SignalingRelay.ConnectorStep | src/signaling/upstream-connector.ts:57-132 | every socket event keeps the buffer within 16 messages and four payloads, and its messages the first frames received |
| SignalingRelay.OverflowEndsInError | src/signaling/upstream-connector.ts:109-114 | an overflow shows as the frames that fitted, in order, then an error |
| SignalingRelay.RelayPrefix | src/signaling/signaling-gateway.ts:38-133 | in every run in which at most one token was accepted, of any number sent, the client gets nothing, or `ready` once and first and then the upstream's frames from the first on, in order, whenever the hand-over happens |
| SignalingRelay.NothingWithheld | src/signaling/signaling-gateway.ts:92-109 | after the hand-over an open client has all frames received so far |
| SignalingRelay.ClientFramesInOrder | src/signaling/signaling-gateway.ts:59-71 | the upstream has an in-order prefix of what the client sent while relaying, all of it until the connection ends |
| SignalingEnds.ClientFramesAreForwarded | src/signaling/signaling-gateway.ts:59-71 | in every run that has come to relaying, any further client frames that the upstream can take are all sent to it in order, and leave the connection as it was |
| SignalingEnds.EndedExactly | src/signaling/signaling-gateway.ts:38-133 | in every run a connection has been ended if and only if one of these has occurred: the client gone, no token in time or in its first frame, a frame too early, a refusal, an end of the upstream, a frame that cannot be sent either way, a failed write, or the end of the session |
| SignalingEnds.EarlyEndCounts | src/signaling/upstream-connector.ts:119-132 | an upstream that ends before its connection is handed over ends the client's connection at the hand-over, whatever runs in between |
| SignalingEnds.NothingAfterClosing | src/signaling/signaling-gateway.ts:59-64 | a client that is closing or gone gets nothing more in the rest of any run |
| SignalingEnds.TimerExactly | src/signaling/signaling-gateway.ts:43-47 | the authentication timer runs until a token is accepted or the connection is closed, and never after |
| SignalingEnds.HandshakeExactly | src/signaling/upstream-connector.ts:83-95 | in every run an upstream handshake succeeds with the text frame that says it is authenticated, and fails with any other report |
| SignalingEnds.BufferedExactly | src/signaling/upstream-connector.ts:103-116 | before activation a frame is kept unless there are 16 events or the bytes would exceed four payloads |
| SignalingRelay.BufferBounded | src/signaling/upstream-connector.ts:109-116 | the bound of the hand-off buffer in every such run |
| SignalingRelay.ClosedForGood | src/signaling/signaling-gateway.ts:49-57 | closed is left only by an authorisation under way and only until its refused connect returns; a closed connection has no registration |
| SignalingRelay.GatewayStep | src/signaling/signaling-gateway.ts:38-133 | with any number of accepted tokens: every event keeps the gateway's invariant, and sends a further `ready` if and only if it hands a second connection over to an open client with room |
| SignalingRelay.ReadyTwiceExactly | src/signaling/signaling-gateway.ts:92-109 | the client of a run gets `ready` more than once if and only if the run has such a second hand-over, for which two tokens must have been accepted |
| SignalingRelay.LeftRegisteredExactly | src/signaling/signaling-gateway.ts:49-57 | until its sessions end, a closed connection is still registered if and only if some token was accepted while an earlier registration was held |
| SignalingRelay.ShutdownLeavesExactly | src/signaling/signaling-gateway.ts:49-57 | closing leaves something registered if and only if something other than the kept closure's was |
| SignalingRelay.TwoTokensTwoReadies | src/signaling/signaling-gateway.ts:115-124 | a run from the start with two different accepted tokens: two `ready` frames, and a registration that closing leaves behind |
| SignalingObjects.UpstreamConnection.OnMessage | src/signaling/upstream-connector.ts:83-117 | the message callback, against the connector machine |
| SignalingObjects.UpstreamConnection.Activate | src/signaling/upstream-connector.ts:95-101 | hands the buffer over completely, in order, and empties it |
| SignalingObjects.ClientConnection.Close | src/signaling/signaling-gateway.ts:49-57 | shutdown happens once, aborts every handshake and gives up the kept registration |
| SignalingObjects.ClientConnection.OnConnected | src/signaling/signaling-gateway.ts:92-109 | `ready`, then every buffered event through the handlers, against the gateway machine |
| SignalingRegistry.SignalingConnectionRegistry.Register | src/signaling/connection-registry.ts:6-14 | the closer joins what is live for its session, in the set that is handed back |
| SignalingRegistry.SignalingConnectionRegistry.Unregister | src/signaling/connection-registry.ts:10-13 | takes its closer out of its own set; it takes that closer and nothing else out of reach if and only if nothing or its own set is mapped, or its own set is not empty afterwards |
| SignalingRegistry.SignalingConnectionRegistry.Revoke | src/signaling/connection-registry.ts:16-27 | takes the session out and calls its closers, none twice and none after it was undone, passing over only those that were; closers may undo each other while the loop runs |
| SignalingRegistry.AllCalled | src/signaling/connection-registry.ts:16-27 | a revocation calls every live closer when closers undo themselves only, and any it passes over was undone by another that was called |
| SignalingRegistry.SignalingConnectionRegistry.LateUnregister | src/signaling/connection-registry.ts:10-13 | a closure of a revoked set, run late, takes a newer connection out of reach |
| SignalingLease.OneController | session/supervisor.mjs:259-333 | at most one client holds the lease, and each client gets its own upstream's frames, in order, after one greeting |
| SignalingLease.LeaseEndsExactly | session/supervisor.mjs:268-333 | a lease has ended if and only if one of its causes has occurred |
| SignalingLease.LeaseForwards | session/supervisor.mjs:282-331 | while it relays, a lease forwards all frames in both directions in order, as long as the other side can take them |
| SignalingLease.LeaseStarts | session/supervisor.mjs:295-318 | relaying is reached by an authentic client and then an upstream that opens, with one greeting, and in no other way |
| SignalingLease.ChainPrefix | session/supervisor.mjs:312-319 | end to end: in every run with at most one accepted token, whenever the hand-over happens, the browser has nothing, or `ready` and an in-order prefix of the frames the lease's own upstream sent |
| SignalingLease.SignalingProxy.Connect | session/supervisor.mjs:259-266 | a client gets the lease if and only if nobody holds it |
| SignalingLease.SignalingProxy.ShutdownLease | session/supervisor.mjs:273-280 | closes once, and gives the place back only for the lease that holds it |
| TurnServers.CredentialRoundTrip | session/supervisor.mjs:202-209 | percent-decoding gives back every accepted credential |
| TurnServers.EncodedAlphabet | session/supervisor.mjs:202-209 | encoded credentials hold unreserved characters and percent signs only |
| TurnServers.ServerRoundTrip | session/supervisor.mjs:154-164 | every accepted server is read back from its print |
| TurnServers.UniquenessIsExact | session/supervisor.mjs:80-83 | the printed strings are distinct if and only if the servers are |
| TurnServers.ArgumentRoundTrip | session/supervisor.mjs:134-136 | the list argument reads back as the accepted list it was printed from and as no other |
| TurnServers.AcceptedExactly | session/supervisor.mjs:154-206 | which servers are accepted, in full: scheme, host as an address or dotted labels, port and credentials within their bounds |
| NginxInstaller.InstallStep | scripts/install-nginx-config.mjs:18-93 | every call of every installer, failing or not, keeps lock, target and transaction directories in accord |
| NginxInstaller.MutualExclusion | scripts/install-nginx-config.mjs:26-32 | at most one installer is past the lock |
| NginxInstaller.InstalledExactly | scripts/install-nginx-config.mjs:18-66 | an installer that has ended has installed its candidate if and only if the lock was free, the target no special file, and none of the calls on its way was refused |
| NginxInstaller.InstalledMeansChecked | scripts/install-nginx-config.mjs:118-122 | and then the check, the reload and the look at the service have all succeeded |
| NginxInstaller.EveryInstallerEnds | scripts/install-nginx-config.mjs:18-93 | however its calls are answered and whoever else is at work, an installer ends after at most 23 calls |
| NginxInstaller.TargetAsAnnounced | scripts/install-nginx-config.mjs:35-82 | whenever the lock is free the target is the candidate of the last installer that returned, or what its rollback made of what was there before, unless the last word was an incomplete rollback |
| NginxInstaller.AnnouncedTruly | scripts/install-nginx-config.mjs:67-80 | what is left behind on each way out; a reported restoration is one if and only if the target was no dangling link and had none of the set-id and sticky bits |
| NginxInstaller.WhatSurvives | scripts/install-nginx-config.mjs:61-79 | a transaction directory outlives its installer, also one that could not remove the lock, if and only if the rollback was incomplete or the cleanup itself failed |
| NginxInstaller.TargetDirectory.InstallLocked | scripts/install-nginx-config.mjs:35-82 | the code under the lock is the protocol's installer on the same answers, with the same target and files at its end: the five ways out, and when the backup is still there |
| NginxInstaller.TargetDirectory.CleanupTransaction | scripts/install-nginx-config.mjs:128-133 | removes all of the transaction or says that it did not, as the protocol does |

## Left out

- SessionService.SessionService.Continue: the credentials object mutated in place is a value with a stamp that stands for its identity; creation time and the view returned to clients are not modelled.
- SessionRevocation.RevocationIsFinal: relays are told to close by session id; that they do is in the relay modules.
- SessionProvenance.OneUseAlways: hashes stand for tickets and tokens, the hash being taken as injective, and random values as never used before.
- DockerLifecycle.CreateIsTransactional: a rejected engine call is taken to have had no effect; with calls that fail after taking effect the code relies on the next reconcile.
- DockerReconcile.Reconciler.Reconcile: the listing is taken to name every managed resource once; the filter string sent to the engine is not modelled, since the rows are filtered again.
- TabCoupling.Coupling: assumes a controller limit of at most 4, the default; `LimitsMeetAtFour` says what happens above.
- TabDriver.ReplyMatching: says nothing of the resolution of number 1 once SHUTDOWN was sent before that number was settled; `ShutdownHazard` says exactly when it goes wrong. Request numbers beyond the safe integers are not modelled.
- TabRuntime.ReplyIsAccepted: assumes that no media error text is one or two code characters long.
- TabUrls.EncodesNormalized: the URL parser is abstract, and assumed to serialise to a fixed point without NUL.
- SignalingRelay.RelayPrefix: holds while at most one token is accepted; with two accepted it is false, as `TwoTokensTwoReadies` shows and `ReadyTwiceExactly` makes precise.
- SignalingRegistry.SignalingConnectionRegistry.Revoke: the closers of one session are taken to undo registrations of that session only.
- SignalingRelay.NothingWithheld: the send buffers and the timers of closing sockets are a yes or no per frame.
- TurnServers.ServerRoundTrip: address recognition is abstract, with an assumed alphabet.
- NginxInstaller.TargetAsAnnounced: owners and timestamps of files, and other programs touching the target or the lock, are not modelled.
- HTTP, WebSocket, Unix-socket and process plumbing: only the events they deliver appear.
- GStreamer elements, pads and audio branches: only whether building them succeeded.
- Tab requests that the service passes to the runtime: only the decision whether the session is active.
- Seccomp profiles, candidate evidence, image manifests, OIDC verification and the in-memory runtime: field checks or test doubles without a protocol.
- `close()` of the signaling proxy and the sealing of the argument file: shutdown and system calls after the modelled part.
