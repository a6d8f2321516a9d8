# CanvasWatcher: a verified model of its state machines

The repository keeps a student's course data: it signs in to Canvas and two other providers, synchronises
their items, lets an AI provider review what changed, and runs one instance per account behind a gateway. This
project models the parts whose correctness is about whole runs rather than single calls.

- `Documents`, `Vault`: what is stored, and the encrypted file that replaces itself atomically, with a fault
  possible at every step of a write.
- `CredentialMemory`, `CredentialStore`: the credential dictionaries, on values and as the class that updates
  them; every operation publishes a full snapshot before it touches memory. `CredentialEffects` says what each
  operation leaves, `CredentialRegisters` what whole runs do. `CanvasPublication` is the compare and set a
  finished Canvas sign-in makes on them.
- `Challenges`, `ChallengeHistory`, `ChallengeTokens`, `ProviderSessionStore`, `Publication`,
  `PublicationEffects`: expiring one-shot sign-in challenges of one tenant, the tokens they ask for, and what a
  completed one may publish.
- `BrokerMap`, `SignIn`, `SignInCompletes`: the gateway's capabilities and the protocol between browser, gateway
  and tenants, with messages lost, delayed, repeated and overtaken, or not.
- `AiSettings`, `AiReadiness`, `AiRestart`: the AI endpoint, its key, what has to happen before chat is ready,
  and what of it a restart keeps.
- `Identity`, `IdentityStore`, `Ownership`: the gateway's tables, transaction by transaction, and who can ever
  own them. `LoginWindow`, `LoginClock`: the pruned sliding window of login attempts, and the clocks it bears.
- `Provisioner`, `ProvisionerCommands`, `Reconciliation`: `reconcile` and `purge` over slot storage, crashable at
  every step and interleaved with the gateway, and where an account's turn ends.
- `AnalysisQueue`, `AnalysisWorker`, `QueueEffects`, `QueueHistory`, `QueueReady`, `QueuePass`, `QueueProgress`:
  the job queue, its worker, what each step leaves, its runs with crashes, a pass as such a run, and its progress.
- `Observations`, `ObservationEffects`, `LastKnown`, `SyncRun`, `SyncStore`, `SyncHistory`, `ChangeKey`: the chain
  of snapshots of an item, what counts as a change, partial responses, whole synchronisation runs,
  reconciliation and the event log.
- `Timeline`, `TimelineGreedy`: two greedy layout passes. `Sets` holds two facts about finite sets.

Where the source changes fields step by step there is a class or a method with a loop, proved equal to a
function of the old state, and its contract also says without that function what changed and what did not; the
theorems are about those functions over all runs. Time, random values, provider answers, faults and file names are
parameters. Tokens and hashes are opaque values, equal only when their preimages are.

Some statements one would like are false of the code on inputs it can receive. The model keeps the code as it
is, gives such an input, and proves exactly when the statement holds:

- a process that is ready is ready again after a restart if and only if its vault is open and it holds no key
  for another endpoint; a failed clear leaves such a key, and a fault behind the rename closes the vault;
- there is an owner, or one to come, unless the first account created is a preview;
- the pruned login table answers as the complete one would, for all keys and limits, if and only if no attempt
  is pruned by a later one and still inside the window of one later again, as a clock that goes back can have it;
- a pending analysis has work to come, unless its input has a settled job;
- a stored change of a known item is announced if and only if it extends a chain of snapshots or first sightings
  are announced too, it is worth announcing, and the same change was not announced before.

Others are exact preconditions of a method, proved as an if-and-only-if, which the rest of the program meets:

- a Canvas mode is selected while its slot is absent only when no Canvas credential is loaded
  (backend/app/services/auth.py:88-91, 199-202, 455-460);
- an NTLM login never meets an id with Canvas slots (backend/app/api/routes.py:1638, 1673);
- no empty text is installed (backend/app/services/auth.py:318-325, website_access.py:52-61 and
  canvas_oauth.py:84-89; a PAT or session is installed only once Canvas has accepted it);
- `clear_all` of the credential store runs at start-up only (backend/app/auth/store.py:127 through
  persistence.py:11, backend/app/services/auth.py:175 through backend/app/main.py:36), when the process has no
  challenge yet, so no captured generation is older than the last `clear_all`;
- rows that could not be fetched come from websites (backend/app/sources/website.py:185-274), while only Canvas
  items are ever marked deleted, so no such row names a marked item; and a row carries its fetch status, so an
  item first met unfetched gets its chain of snapshots with the first row that is stored.

`dafny verify dfyconfig.toml` checks everything.

## Model

| member | source | states |
|---|---|---|
| `Vault.CredentialVault.Open` | backend/app/auth/vault.py:55-82 | a vault opens exactly when there is no file yet or the file decrypts under its key, and then remembers what the file holds |
| `Vault.CredentialVault.Read` | backend/app/auth/vault.py:84-88 | a read is refused exactly when the vault has failed, and otherwise answers what the disk holds for the namespace |
| `Vault.CredentialVault.Write` | backend/app/auth/vault.py:90-133 | with a fault at any step the disk holds, at every instant, either the previous contents or exactly the attempted ones; a fault before the rename leaves no trace, one after it closes the vault; no temporary file is left |
| `Vault.DiskHoldsLastReached` | backend/app/auth/vault.py:84-133 | over every run of writes, faults and reopenings the disk is one register per namespace: the last value whose write reached the rename; an open vault's memory equals the disk |
| `Vault.ClosedVaultIsFrozen` | backend/app/auth/vault.py:91-92 | after an ambiguous fault every further write, of any namespace, is refused and changes nothing |
| `CredentialMemory.RestoreRoundTrip` | backend/app/auth/store.py:81-141 | restoring a saved snapshot gives back every entry, whatever the clocks, and the cache of effective credentials is right; with both kinds under one id Canvas wins |
| `CredentialMemory.MemoryFollowsPublication` | backend/app/auth/store.py:143-216 | after any operation memory says of every id exactly what the snapshot written before it said, and no other id changed |
| `CredentialMemory.PerformedIsDurable` | backend/app/auth/store.py:65-79 | one operation, with any vault fault, keeps memory, disk and cache in agreement |
| `CredentialMemory.RunsAreDurable` | backend/app/auth/store.py:42-141 | over every run of operations, failed writes and restarts, every restart succeeds and memory and disk agree whenever the vault is open |
| `CredentialMemory.EffectiveIsDetermined` | backend/app/auth/store.py:192-203 | the cached credential of an id is the first present of preferred, OAuth, PAT and browser session, else its NTLM login |
| `CredentialMemory.RestartIsInvisible` | backend/app/auth/store.py:81-141 | unless an ambiguous fault occurred, a fresh store restored from disk shows every id the same slots, block, preference, absolute OAuth expiry and effective credential |
| `CredentialMemory.FirstStartIsDurable` | backend/app/auth/store.py:24-36 | a first start, with no file and nothing in memory, satisfies the invariant |
| `CredentialMemory.RestartsAreInvisibleFromTheFirstStart` | backend/app/auth/store.py:42-141 | end to end, from the first start: after any run the process is there, and unless its vault is closed a restart now would show every id the same entry and effective credential |
| `CredentialMemory.AmbiguousFaultCommitsAtRestart` | backend/app/auth/store.py:65-73 | after a fault behind the rename memory keeps the old state, nothing later is accepted, and the next restart finds exactly the attempted operation |
| `CredentialMemory.SelectIsSafeExactlyWhenWinnerStays` | backend/app/auth/store.py:316-326 | selecting a mode keeps cache and snapshot in agreement if and only if its slot is present, no slot is, or the default order picks the current winner anyway |
| `CredentialMemory.SelectingAnAbsentModeCanDesynchronise` | backend/app/auth/store.py:324-326 | what that precondition keeps out: a store in which selecting an absent mode leaves memory serving another credential than a restart would |
| `CredentialMemory.SetNtlmIsSafeExactlyWithoutSlots` | backend/app/auth/store.py:143-146 | an NTLM login keeps cache and snapshot in agreement if and only if its id holds no Canvas slot |
| `CredentialMemory.EmptyTextIsFatalAtRestart` | backend/app/auth/store.py:81-141 | a store whose operation was saved restarts if and only if the operation carried no empty text; the callers check texts before they install |
| `CredentialMemory.GenerationsGrowExceptOnClearAll` | backend/app/auth/store.py:371-376 | no operation but `clear_all` lowers a generation; `clear_all` sets every generation back to zero |
| `CredentialMemory.SlotChangesRaiseGeneration` | backend/app/auth/store.py:206-305 | a slot whose generation is unchanged by an operation is itself unchanged by it |
| `CredentialRegisters.CredentialsAreRegisters` | backend/app/auth/store.py:42-376 | over every run from the first start, with faults and restarts: an id holds in each mode the slot last installed and not since removed or cleared, and the login and preference last decided; it is blocked exactly if its last deciding accepted operation blocked it, removed its PAT or cleared it while it held one; the credential in use follows from these |
| `CredentialStore.Store.TakeSnapshot` | backend/app/auth/store.py:42-53 | the snapshot holds one entry for every id known to any of the dictionaries, with OAuth expiry turned into wall-clock time |
| `CredentialStore.Store.PersistChange` | backend/app/auth/store.py:65-72 | exactly one vault write of the full snapshot with one entry changed, and no change of memory |
| `CredentialStore.Store.SetNtlm` | backend/app/auth/store.py:143-146 | memory changes only if the vault took the write |
| `CredentialStore.Store.ReplaceNtlm` | backend/app/auth/store.py:157-169 | compare and set: a caller that saw another object changes neither memory nor vault |
| `CredentialStore.Store.ActivateBest` | backend/app/auth/store.py:192-201 | the loop over the priority order installs the first slot present, or drops the id |
| `CredentialStore.Store.SetCanvas` | backend/app/auth/store.py:171-190 | all three installers publish first; the slot goes in, the cache follows, its generation alone rises, and a PAT, and no other slot, lifts the block |
| `CredentialStore.Store.RemoveCanvasSlot` | backend/app/auth/store.py:269-305 | a stale generation leaves memory and vault alone; otherwise the slot goes, the next best is served, its generation rises, and the id becomes blocked exactly if it was the PAT |
| `CredentialStore.Store.SelectCanvasMode` | backend/app/auth/store.py:316-326 | the preference is published and recorded, the slot of that mode is served if it is present, and nothing else changes |
| `CredentialStore.Store.ClearMemory` | backend/app/auth/store.py:350-362 | removing the slots one by one, re-activating after each, ends in the same state as dropping them all at once |
| `CredentialStore.Store.BlockCanvas` | backend/app/auth/store.py:332-337 | the id ends blocked and without credentials, published before memory is touched |
| `CredentialStore.Store.Clear` | backend/app/auth/store.py:343-348 | the id loses every credential and keeps its preference; it becomes blocked exactly if it held a PAT |
| `CredentialStore.Store.ClearAll` | backend/app/auth/store.py:364-376 | the namespace is emptied on disk first, and then every dictionary |
| `CredentialStore.Store.ConfigurePersistence` | backend/app/auth/store.py:81-141 | loading accepts exactly the files that validate, installs what they hold with fresh positive generations, and on refusal changes nothing |
| `CanvasPublication.PublicationFindsWhatItSaw` | backend/app/api/broker.py:217-223 | a Canvas challenge that may still publish finds the slot as it was at its creation, whatever operations came between, short of `clear_all` |
| `CanvasPublication.PublishedOnceForAll` | backend/app/api/broker.py:217-236 | once one challenge of a captured generation has published, no other that captured it may |
| `CanvasPublication.GenerationsCountRaises` | backend/app/auth/store.py:206-305 | without `clear_all` a generation is exactly the number of installations and removals of its slot |
| `CanvasPublication.MayPublishExactlyAtItsCount` | backend/app/api/broker.py:217-223 | over every run, `clear_all` included, a challenge may publish if and only if the installations and removals counted since the last `clear_all` are as many as it captured |
| `CanvasPublication.PublishedOnceExactlyUnlessRecounted` | backend/app/api/broker.py:217-236 | a challenge whose generation another has used up is refused if and only if no `clear_all` came since, or the count reached behind it is not the captured one |
| `CanvasPublication.PublicationFindsWhatItSawOrARestart` | backend/app/api/broker.py:217-223 | a challenge that may still publish finds what its creation saw, or what the operations since the last `clear_all` left in an empty store |
| `CanvasPublication.ClearAllBringsGenerationsRound` | backend/app/auth/store.py:371-376 | what the start-up order keeps out: an old captured generation that matches a different session behind a `clear_all` |
| `Challenges.ChallengeStore.CancelOlder` | backend/app/auth/broker_challenges.py:47-51 | exactly the live challenges of the same provider and credential are cancelled |
| `Challenges.ChallengeStore.Create` | backend/app/auth/broker_challenges.py:43-59 | creation prunes what expired over five minutes ago, refuses at 64 rows, supersedes the pending attempt of the profile |
| `Challenges.ChallengeStore.Row` | backend/app/auth/broker_challenges.py:61-67 | looking a challenge up is what times it out |
| `Challenges.ChallengeStore.Claim` | backend/app/auth/broker_challenges.py:75-84 | granted if and only if the reference names a live, unclaimed row before its deadline and the ticket is its own; the row is then opened with the new exchange token and every other row stays; errors tell expiry from refusal |
| `Challenges.ChallengeStore.BeginCompletion` | backend/app/auth/broker_challenges.py:86-93 | granted if and only if the row is live, claimed, in time and not begun, and the exchange token is the one its claim was given; every other row stays |
| `Challenges.ChallengeStore.Finish` | backend/app/auth/broker_challenges.py:95-100 | publication runs exactly when the challenge is still live at that moment, and ends it only if it returned |
| `Challenges.ChallengeStore.Fail` | backend/app/auth/broker_challenges.py:102-105 | only a live challenge fails |
| `Challenges.ChallengeStore.Control` | backend/app/auth/broker_challenges.py:107-117 | only the row's own control token reads or cancels, and only a live challenge is cancelled; nothing else changes |
| `ChallengeHistory.RunsAreSound` | backend/app/auth/broker_challenges.py:35-117 | over every run: at most 64 rows, at most one live challenge per provider and credential, each claimed and published at most once, published only if claimed, and published exactly if ended authenticated |
| `ChallengeHistory.RunsFromTheFirstStartAreSound` | backend/app/auth/broker_challenges.py:35-117 | the same from an empty table, written out |
| `ChallengeHistory.EndingsAreFinal` | backend/app/auth/broker_challenges.py:61-117 | terminal states are absorbing: after cancellation, timeout, failure or supersession a challenge is never published |
| `ChallengeHistory.RowCountBounded` | backend/app/auth/broker_challenges.py:43-51 | no operation takes the table beyond 64 rows |
| `ChallengeHistory.ProfileStaysUnique` | backend/app/auth/broker_challenges.py:47-59 | one live challenge per provider and credential is kept by every operation |
| `ChallengeHistory.AuthenticatedExactlyByPublication` | backend/app/auth/broker_challenges.py:95-100 | a challenge becomes authenticated by its own publication and by nothing else |
| `ChallengeTokens.EveryGrantPresentedItsToken` | backend/app/auth/broker_challenges.py:43-117 | over every run: each claimed challenge was claimed with the ticket given at its creation and before its deadline, each published one was begun with the exchange token that claim was given, and each ended one was ended by what its ending says: its own control token, the clock, a failure, a newer attempt or its publication |
| `ProviderSessionStore.Store.ConfigurePersistence` | backend/app/auth/provider_sessions.py:36-53 | loading accepts exactly the files that validate, with a positive generation for each session, and on refusal changes nothing |
| `ProviderSessionStore.Store.Set` | backend/app/auth/provider_sessions.py:64-73 | compare and set by generation: stale callers and failed vault writes change nothing |
| `ProviderSessionStore.Store.Remove` | backend/app/auth/provider_sessions.py:75-88 | a removal that the vault took raises the generation, present or not |
| `Publication.OnePublicationPerGeneration` | backend/app/api/broker.py:166-209 | over every run, of all challenges that captured one generation of a key at most one publishes or clears it, and that one finds the value it saw when it was created |
| `PublicationEffects.CompletingPublishesExactly` | backend/app/api/broker.py:196-209 | a completion publishes if and only if its challenge is pending in time, the credential is still at the captured generation with its base unchanged, and the vault takes the write; then that credential alone changes, to the new login or to nothing, one generation further, and the challenge is authenticated |
| `PublicationEffects.ClearingAllClearsExactly` | backend/app/api/broker.py:166-182 | clearing all drops every listed credential still at its captured generation and no other, when the vault takes the writes, and its challenge is then authenticated |
| `PublicationEffects.CreatingCaptures` | backend/app/api/broker.py:93-123 | a new challenge captures the present generation of its credential, or of all listed ones |
| `Publication.RemoveMatchingRemovesExactly` | backend/app/api/broker.py:174-182 | clearing all drops exactly the keys still at their captured generation, each once, and leaves every other value and generation; when the vault fails half way each of them is dropped or untouched |
| `Publication.RemoveMatchingIsSound` | backend/app/api/broker.py:174-182 | clearing all keeps log and captured views in agreement, also when the vault fails half way, and the log only grows |
| `Publication.RunsAreSound` | backend/app/api/broker.py:92-209 | every recorded publication happened at the generation its challenge captured, and the log only grows |
| `BrokerMap.Map.Create` | identity-gateway/aw_gateway/broker_map.py:57-85 | expired rows go, 64 live ones are the limit, and lifetimes outside 1 to 240 seconds are refused |
| `BrokerMap.Map.BrowserControl` | identity-gateway/aw_gateway/broker_map.py:87-93 | only the creating user with the outer control token reaches the inner one |
| `BrokerMap.Map.BrokerClaim` | identity-gateway/aw_gateway/broker_map.py:95-101 | only the outer ticket reaches the inner ticket |
| `BrokerMap.Map.Exchange` | identity-gateway/aw_gateway/broker_map.py:103-113 | a mapping in time that was not exchanged before takes both exchange tokens, and no other mapping changes |
| `BrokerMap.Map.BrokerCompletion` | identity-gateway/aw_gateway/broker_map.py:115-127 | only the outer exchange token reaches the inner one |
| `BrokerMap.Map.Finish` | identity-gateway/aw_gateway/broker_map.py:129-132 | a finished mapping is gone; the others stay |
| `SignIn.RunsAreSound` | identity-gateway/aw_gateway/main.py:452-505 | every interleaving of requests, lost or repeated messages, relayed completions and failures, expiry, and restarts of gateway and tenants keeps gateway rows, messages and tenants in agreement |
| `SignIn.GatewayAndTenantAgree` | identity-gateway/aw_gateway/main.py:476-502 | an exchanged mapping leads to a claimed challenge of its own tenant and holds the token that very claim issued; no mapping ever hands out two outer tokens, even with racing claims |
| `SignIn.DeliveryTouchesOnlyItsOrigin` | identity-gateway/aw_gateway/main.py:484-494 | a relayed message changes at most the one challenge of the one tenant fixed when its mapping was created |
| `SignIn.CompletionNeedsTheHandedToken` | identity-gateway/aw_gateway/main.py:486-487 | completions are relayed exactly for the outer token that was handed out for the mapping |
| `SignIn.GatewayExchangeIsSound` | identity-gateway/aw_gateway/main.py:496-499 | of racing claim answers the first is exchanged; the others change nothing, at whatever time they arrive |
| `SignInCompletes.AnUndisturbedSignInCompletes` | identity-gateway/aw_gateway/main.py:452-505 | from any state with room on both sides the nine steps of an undisturbed sign-in in time are all enabled and end with the challenge authenticated and the mapping gone |
| `SignInCompletes.OnlyTheRightTokensAreRelayed` | identity-gateway/aw_gateway/main.py:452-505 | a claim is relayed only for the outer ticket, a completion only for the outer exchange token, a control request only for the control token and the user who made the mapping |
| `SignInCompletes.CancellingGoesThrough` | identity-gateway/aw_gateway/main.py:452-475 | a cancellation by that user reaches the tenant and ends its pending challenge |
| `AiSettings.SecretStore.Save` | backend/app/services/ai_settings.py:35-38 | one record replaces the AI namespace, or the vault refuses |
| `AiSettings.SecretStore.ConfigurePersistence` | backend/app/services/ai_settings.py:40-66 | without a vault the store starts empty; with one, a record loads exactly if it validates, and its verification is bound to the new process's generation |
| `AiSettings.SecretStore.InvalidateVerification` | backend/app/services/ai_settings.py:68-73 | the stored verification goes first, the one in memory only if that worked |
| `AiSettings.SecretStore.MarkVerified` | backend/app/services/ai_settings.py:75-80 | an outdated probe marks nothing, in memory or on disk |
| `AiSettings.SecretStore.Set` | backend/app/services/ai_settings.py:82-91 | implausible keys are refused untouched; a new key withdraws the verification and advances the generation |
| `AiSettings.SecretStore.Clear` | backend/app/services/ai_settings.py:98-104 | clearing withdraws key, endpoint and verification together, or nothing |
| `AiReadiness.ReadinessIsEarned` | backend/app/services/ai_settings.py:128-145 | whenever chat calls itself ready, a probe of exactly the endpoint, model and key now in force passed, and neither settings nor credential changed since that probe began |
| `AiReadiness.RunsAreSound` | backend/app/services/ai_settings.py:148-187 | over every interleaving of edits, key imports and deletions, overlapping probes, failed commits and vault writes, and restarts, what memory certifies and what the disk would certify after a restart was earned |
| `AiReadiness.MarkingIsSound` | backend/app/services/ai_settings.py:251-271 | a probe that finds its identity unchanged certifies what is in force now |
| `AiReadiness.SavedSettingsAreInForce` | backend/app/services/ai_settings.py:148-177 | a committed save puts exactly its endpoint and model in force, under the old revision if both already were and the new one otherwise; a change withdraws the verification and a new endpoint takes the key, if the vault takes the write; an uncommitted save changes nothing |
| `AiReadiness.ImportedKeyIsInForce` | backend/app/services/ai_settings.py:179-187 | a plausible key for the hosted endpoint in force is stored for it and withdraws the verification; anything else changes nothing |
| `AiReadiness.EndedProbeVerifies` | backend/app/services/ai_settings.py:251-271 | a probe that comes back verifies the settings if and only if it passed, both writes went through, and settings and generation are still those it was sent with |
| `AiReadiness.APassingProbeMakesReady` | backend/app/services/ai_settings.py:190-271 | complete settings are ready after one probe that passes, whatever came before |
| `AiReadiness.EventsAreCounted` | backend/app/services/ai_settings.py:148-271 | the record those theorems speak of counts exactly the changes of the row, those of the stored credential, and the probes that passed |
| `AiRestart.ReadinessSurvivesARestartExactly` | backend/app/services/ai_settings.py:40-87 | over every run from a first start, with failing and ambiguous writes: a ready process is ready again after a restart if and only if its vault is open and it holds no key for another endpoint |
| `AiRestart.ReadyOnesThatDoNotComeBack` | backend/app/services/ai_settings.py:40-73 | the two ways to fail: with a stale key the next start is refused, without an open vault it comes up unverified |
| `AiRestart.RunsFit` | backend/app/services/ai_settings.py:35-73 | in every reachable state an open vault's record is what memory says, and a probe of the present generation and a verification exclude each other |
| `AiRestart.MarkingIsRestartableExactlyWithoutStaleKey` | backend/app/services/ai_settings.py:40-80 | a verification leaves a record the next process accepts if and only if no key for another endpoint is stored beside it |
| `AiRestart.StaleKeysComeFromFailedClears` | backend/app/services/ai_settings.py:166-176 | such a key is left behind only by an endpoint change whose clear was not reported done, or found by a restart behind a closed vault |
| `AiRestart.AFailedClearCanBlockTheNextStart` | backend/app/services/ai_settings.py:148-177 | a concrete run: ready now, refused at the next start |
| `AiRestart.AnAmbiguousWithdrawalLosesReadiness` | backend/app/services/ai_settings.py:68-73 | a concrete run: a withdrawal fails behind the rename, this process stays ready with the right key, and the next one starts unready |
| `IdentityStore.Store.FreeSlot` | identity-gateway/aw_gateway/store.py:164-190 | the search answers the least unused slot from 2 up, or none |
| `IdentityStore.Store.CreateOwner` | identity-gateway/aw_gateway/store.py:135-156 | the owner is created exactly with a usable hash and code in an empty table, in slot 1 |
| `IdentityStore.Store.CreatePreview` | identity-gateway/aw_gateway/store.py:164-190 | a preview account takes the least free slot and is active at once |
| `IdentityStore.Store.ClaimOwner` | identity-gateway/aw_gateway/store.py:202-232 | the code is claimed once and yields a bootstrap session |
| `IdentityStore.Store.FinishOwnerPasswordChange` | identity-gateway/aw_gateway/store.py:234-261 | the change ends every session of the owner and issues one normal one |
| `IdentityStore.Store.CreateSession` | identity-gateway/aw_gateway/store.py:263-272 | sessions go to active users that need no password change |
| `IdentityStore.Store.Authenticate` | identity-gateway/aw_gateway/store.py:274-283 | a live token always names an active user, of the right session kind |
| `IdentityStore.Store.CreateInvitation` | identity-gateway/aw_gateway/store.py:308-324 | an administrator invites while the head count is below the slots |
| `IdentityStore.Store.RedeemInvitation` | identity-gateway/aw_gateway/store.py:334-368 | exactly an unexpired invitation for the address, not yet redeemed, with a free name and slot, becomes a pending account in the least free slot, and is marked redeemed by it; nothing else changes |
| `IdentityStore.Store.DisableUser` | identity-gateway/aw_gateway/store.py:382-399 | disabling ends the account's sessions, and nobody disables themselves |
| `IdentityStore.Store.RegisterOAuthCallback` | identity-gateway/aw_gateway/store.py:407-422 | only for an active user in that slot, for at most ten minutes |
| `IdentityStore.Store.ConsumeOAuthCallback` | identity-gateway/aw_gateway/store.py:424-437 | one use, and only to the slot the user holds now |
| `Identity.CalledIsSound` | identity-gateway/aw_gateway/store.py:135-437 | every gateway transaction keeps sessions, slots, roles and invitations consistent |
| `Identity.RunsAreSound` | identity-gateway/aw_gateway/store.py:202-399 | over every interleaving of transactions, activations and purges: each session belongs to an active user and is bootstrap exactly when that user must change password; slots are distinct and in range, slot 1 only the owner's; the owner code is claimed at most once; no invitation is redeemed twice, even across a purge |
| `Identity.PasswordChangeLeavesOneNormalSession` | identity-gateway/aw_gateway/store.py:234-261 | after the change exactly one session of the owner is left, the normal one just issued |
| `Identity.EventsAreRecorded` | identity-gateway/aw_gateway/store.py:202-368 | the record those theorems speak of holds exactly the redemptions that marked an invitation and counts the claims that marked the owner's code |
| `Identity.HeadCountMatchesSlotSearch` | identity-gateway/aw_gateway/store.py:308-352 | with an owner present, the head count that admits an invitation holds if and only if the least-free-slot search succeeds |
| `Identity.RunsFromTheFirstStartAreSound` | identity-gateway/aw_gateway/store.py:135-399 | the same from an empty database, with slots, roles and sessions written out |
| `Ownership.OwnerlessForGood` | identity-gateway/aw_gateway/store.py:135-190 | with accounts but no owner, no later event ever brings an owner |
| `Ownership.OwnedForGood` | identity-gateway/aw_gateway/store.py:382-399 | an owner stays the owner through every later event |
| `Ownership.OnlyAnEarlyPreviewLosesTheOwner` | identity-gateway/aw_gateway/store.py:135-190 | of all events, purges and activations included, that state is entered by one alone: creating a preview account in the empty table, with room for one |
| `Ownership.TheFirstAccountDecides` | identity-gateway/aw_gateway/store.py:135-190 | from an empty table, the first event that creates an account decides for good between owned and ownerless |
| `Ownership.OwnerlessExactlyByAnEarlyPreview` | identity-gateway/aw_gateway/store.py:135-190 | from the first start every reachable table is empty, has an owner or is ownerless, and it is ownerless if and only if the events create a preview before any owner |
| `LoginWindow.Limiter.RecordLoginAttempt` | identity-gateway/aw_gateway/store.py:289-302 | an attempt is refused exactly when the key's attempts within the window reach the limit, and only accepted ones are recorded |
| `LoginWindow.Limiter.ClearLoginAttempts` | identity-gateway/aw_gateway/store.py:304-306 | exactly the key's attempts are forgotten |
| `LoginWindow.PruningIsExact` | identity-gateway/aw_gateway/store.py:289-306 | with a clock that does not go back the pruned table answers every call as the complete history would, whatever the keys and limits |
| `LoginWindow.WindowBoundsAttempts` | identity-gateway/aw_gateway/store.py:289-306 | in the complete history any interval of window length holds at most the limit of accepted attempts of a key between clears |
| `LoginWindow.PrunedTableBoundsAttempts` | identity-gateway/aw_gateway/store.py:289-306 | the same bound for the attempts the pruned table accepts, with a clock that does not go back |
| `LoginWindow.PruningIsExactUnlessItForgets` | identity-gateway/aw_gateway/store.py:289-302 | under any clock: over a whole run the pruned table answers as the complete history would if and only if no call finds its window at the limit only through attempts that a call from further ahead has pruned |
| `LoginWindow.CallAgreesExactly` | identity-gateway/aw_gateway/store.py:289-302 | the same for one call, by comparing the attempts still held with all attempts in its window |
| `LoginWindow.FirstCallAfterAnOrderedRun` | identity-gateway/aw_gateway/store.py:289-302 | the first call after an ordered run, its clock set back or not, is answered exactly if and only if the attempts of its window before the pruned part do not make the difference |
| `LoginWindow.OrderedRunsNeverForget` | identity-gateway/aw_gateway/store.py:289-302 | no call of a run whose clock does not go back forgets |
| `LoginWindow.AClockJumpForgets` | identity-gateway/aw_gateway/store.py:289-302 | a concrete run in which one call from the future makes pruning forget a live attempt |
| `LoginClock.PruningIsExactExactlyOnASteadyClock` | identity-gateway/aw_gateway/store.py:289-306 | the clock alone decides: calls at given times are answered as the complete history would answer them, for all keys and limits, if and only if no attempt is pruned by a later one and still inside the window of one later again |
| `LoginClock.SteadyRunsAreExact` | identity-gateway/aw_gateway/store.py:289-306 | a run whose times meet that condition is answered exactly |
| `LoginClock.SteadyRunsRemember` | identity-gateway/aw_gateway/store.py:289-302 | such a run never forgets, from any history its past accounts for |
| `LoginClock.BetrayedRun` | identity-gateway/aw_gateway/store.py:289-302 | where the times do not meet it, one key tried twice with one attempt allowed gets a different answer |
| `LoginClock.OrderedClocksAreSteady` | identity-gateway/aw_gateway/store.py:291 | a clock that does not go back meets the condition |
| `ProvisionerCommands.Host.PrepareSlot` | ops/azure/aw_provision.py:130-165 | the parts of a slot are made in order and the first failure ends the preparation there |
| `ProvisionerCommands.Host.StartAndActivate` | ops/azure/aw_provision.py:316-323 | an account is activated only after its own running instance answered healthy |
| `ProvisionerCommands.Host.Supervise` | ops/azure/aw_provision.py:306-329 | under an import lock or of a disabled account an instance is only ever stopped, of an active one only ever started, and that only with its secrets; each happens exactly if its command took effect, and everything else in the slot stays |
| `ProvisionerCommands.Host.ReconcileUser` | ops/azure/aw_provision.py:301-329 | one account's turn with any external command failing at any point: each part of a waiting slot is there afterwards exactly if it was or its command took effect and all before it succeeded; the account is activated exactly if all did; other accounts are supervised, previews and other slots untouched |
| `ProvisionerCommands.Strip` | ops/azure/aw_provision.py:359-380 | whatever fails or crashes, a slot only loses parts, nothing is removed while it runs, and success means an empty slot |
| `ProvisionerCommands.Host.Purge` | ops/azure/aw_provision.py:332-387 | the row is deleted only with the slot empty; every other exit keeps the tables and touches no other slot |
| `Provisioner.SlotReuseIsClean` | ops/azure/aw_provision.py:301-387 | under every interleaving of gateway transactions with reconcile and purge commands that may crash at any step, a slot of 2 or more without an account holds no image, mount, secrets, token or running instance, and a non-preview account there is active only after its instance answered healthy |
| `Provisioner.RunsAreSound` | ops/azure/aw_provision.py:290-387 | the invariant behind that, including the progress of a half-done purge |
| `Provisioner.PurgeOnCompletes` | ops/azure/aw_provision.py:332-387 | a purge whose commands work ends with the account deleted, its slot clean and every other slot untouched, from any reachable step |
| `Provisioner.CrashedPurgeCanBeRerun` | ops/azure/aw_provision.py:382-385 | from every reachable state a crashed purge can be run again to completion |
| `Provisioner.PurgeIsNeverOvertaken` | ops/azure/aw_provision.py:339-355 | no gateway transaction can make the last step of a purge under way refuse the account |
| `Reconciliation.HeadReconciled` | ops/azure/aw_provision.py:301-329 | the same of the step machine: its steps over one account come to exactly that |
| `Reconciliation.WorkingReconcileConverges` | ops/azure/aw_provision.py:290-329 | a whole reconcile whose commands work reaches for every account listed what its row asks for: waiting ones provisioned and active, active ones running, disabled or locked ones stopped, previews left alone |
| `AnalysisQueue.BatchFinds` | backend/app/ai/queue.py:191-198 | the batch is the oldest pending jobs, all of them if fewer than the limit |
| `AnalysisWorker.Database.EnqueueTaskAnalysis` | backend/app/ai/queue.py:52-91 | nothing happens exactly if the analysis is current and not forced; a forced request ends with its job pending and no attempts |
| `AnalysisWorker.Database.EnqueueChangeAnalysis` | backend/app/ai/queue.py:106-150 | one job per input, none for a dropped change |
| `AnalysisWorker.Database.RecoverStale` | backend/app/ai/queue.py:170-176 | exactly the stale claims are released, or failed when their attempts are spent, and then their analyses are FAILED with their hash; everything else stays |
| `AnalysisWorker.Database.Route` | backend/app/ai/queue.py:178-188 | only change reviews are parked, and only they come back |
| `AnalysisWorker.Database.TakeTurn` | backend/app/ai/queue.py:200-230 | one job's turn: parked, refused, or claimed with one more attempt and then settled; a job that fails leaves its analysis FAILED with its hash, one that ends READY leaves it READY, or suppressed if the change is now dropped; every other job and analysis stays |
| `AnalysisWorker.Database.RunPass` | backend/app/ai/queue.py:169-230 | a pass is recovery, routing and then the turns of the oldest pending jobs up to the limit, each leaving what a turn leaves, and answers how many of them ended READY |
| `AnalysisWorker.Worker.RunPending` | backend/app/ai/queue.py:160-239 | a pass beside a running one does nothing and answers 0; otherwise the answer is the READY jobs and what the summaries add, and the lock is free again |
| `QueueHistory.RunsAreSound` | backend/app/ai/queue.py:52-230 | in every reachable state, crashes between commits and concurrent requests included: pending and waiting jobs have fewer than `max_attempts` attempts, claimed ones between 1 and that; one job per input; each pending analysis has a job for its input |
| `QueueHistory.ProviderCallsAreBounded` | backend/app/ai/queue.py:169-230 | a job's provider calls over any run are at most `max_attempts`, and `max_attempts` more for each forced restart |
| `QueueHistory.OverUntilForced` | backend/app/ai/queue.py:83-91 | a READY or FAILED job changes by nothing but a forced request for its own input |
| `QueueHistory.TurnIsARun` | backend/app/ai/queue.py:200-230 | a turn of an uninterrupted pass is a run of the interleaved steps |
| `QueueReady.ReadyMeansDone` | backend/app/ai/queue.py:52-230 | over every run, crashes and overlapping requests included, an analysis recorded READY belongs to a READY job for its very input |
| `QueueReady.ACallShows` | backend/app/ai/queue.py:200-222 | between its two commits a called job is claimed with the attempt counted, and a review's analysis says so |
| `QueueReady.CallsAreTallied` | backend/app/ai/queue.py:200-222 | the calls and forced requests those bounds speak of are exactly the ones made |
| `QueuePass.PassIsARun` | backend/app/ai/queue.py:169-230 | a whole uninterrupted pass is one run of the interleaved steps, so the bounds over runs and the progress of passes are about one machine |
| `QueueProgress.PassShrinks` | backend/app/ai/queue.py:169-230 | while any job is unsettled, a pass with a provider strictly lowers the remaining work |
| `QueueProgress.EveryJobSettles` | backend/app/ai/queue.py:169-230 | with a provider there, enough passes take every job to READY or FAILED, however often calls fail and whatever a crash left claimed |
| `QueueProgress.TotalIsAtMost` | backend/app/ai/queue.py:153-158 | the number of passes needed is at most twice `max_attempts` plus one for each job |
| `QueueProgress.UnavailablePassSpendsNothing` | backend/app/ai/queue.py:178-213 | a pass without a provider counts no attempt, parks every change review before the limit applies, and fails the other jobs it took |
| `QueueProgress.PendingEffortHasWorkExactlyWithoutSettledJob` | backend/app/ai/queue.py:71-91 | a request leaves its pending analysis with work to come if and only if it is forced or its input has no settled job |
| `QueueProgress.PendingReviewHasWorkExactlyWithoutSettledJob` | backend/app/ai/queue.py:134-150 | the same for change reviews, which are never forced |
| `QueueProgress.ReturningToAnOldInputStalls` | backend/app/ai/queue.py:71-91 | a concrete run: a task edited and edited back waits for a job that is already READY |
| `ChangeKey.MaterialIsInjective` | backend/hotfix_sync.py:81-88 | two keys have the same text exactly when item, change and both identities agree |
| `SyncStore.RetainFields` | backend/hotfix_sync.py:1003-1026 | the copying loops put back exactly the fields the response lacks and the last snapshot has |
| `SyncStore.Store.StoreObservation` | backend/hotfix_sync.py:978-1114 | one observation brings its item back and puts its content at the end of the chain unless there is nothing new, keeps everything else of item and catalog, and appends at most one event, with the two contents and the change it stands for |
| `SyncStore.Store.PendingSourceItem` | backend/hotfix_sync.py:856-892 | a row that could not be fetched creates a placeholder or changes nothing |
| `SyncStore.Store.MarkRemoved` | backend/hotfix_sync.py:815-853 | an item is marked once, and its removal announced at most once for its last content |
| `SyncStore.Store.ReconcileCanvas` | backend/hotfix_sync.py:788-854 | only unseen items are marked, and the answer counts the events appended |
| `SyncStore.Store.RunCourse` | backend/hotfix_sync.py:430-527 | an interrupted run leaves what the rows before it leave, one after the other; a complete one then marks exactly the unseen items of the successful types |
| `Observations.ObservingKeepsTheChain` | backend/hotfix_sync.py:987-1114 | an item's current hash stays that of its latest snapshot, a snapshot is added exactly when the content taken differs, adjacent ones differ, and the event spans the new one and the one before |
| `Observations.ObservedByHash` | backend/hotfix_sync.py:1033-1042 | on a sound chain the comparison with the current hash decides alone; re-hashing the old snapshot never finds anything more |
| `ObservationEffects.SameDigestExactly` | backend/hotfix_sync.py:91-124 | two contents count as the same if and only if their texts are equal and every field agrees, up to what is silent inside it, that is not one of the twelve silent ones, nor `updated_at` outside files |
| `ObservationEffects.AssignmentChanges` | backend/hotfix_sync.py:1117-1131 | a change to a Canvas assignment is its creation, a moved deadline, its publication or an update, in that order, and always asks for action |
| `ObservationEffects.FileChanges` | backend/hotfix_sync.py:1132-1147 | a change to a Canvas file is its addition, its release, a new name, new content or metadata, in that order |
| `LastKnown.MergedField` | backend/hotfix_sync.py:1003-1026 | merging takes a field from the last snapshot exactly when the response lacks it and the snapshot has it |
| `LastKnown.NothingNewExactly` | backend/hotfix_sync.py:1003-1034 | a response adds no snapshot if and only if all it speaks for, text included, is as it was |
| `LastKnown.AgreeingPartialIsSilent` | backend/hotfix_sync.py:1003-1034 | a partial response that agrees on everything else adds no snapshot and no event |
| `LastKnown.LatestSnapshotIsTheRegister` | backend/hotfix_sync.py:987-1060 | after any history of full and partial responses, failed fetches and removals the latest snapshot holds, for every field, the value it was last known to have |
| `LastKnown.LatestTextIsTheRegister` | backend/hotfix_sync.py:1003-1013 | over any history the latest snapshot's text is the one last sent with a description |
| `LastKnown.LastKnownValueStands` | backend/hotfix_sync.py:1003-1026 | read directly: a value stands as long as every later response lacks its field |
| `LastKnown.LabelsTellMissingKeys` | backend/app/sources/canvas.py:502-520 | the state labels tell a key that was left out from one sent empty |
| `LastKnown.OmittedDueDatesStand` | backend/app/sources/canvas.py:511-512 | a due date sent by Canvas stands in the latest snapshot as long as later rows leave the key out, and is cleared by a row that sends it empty |
| `LastKnown.ChainStartsAtTheFirstDifference` | backend/hotfix_sync.py:873-892 | an item of any kind first met as an unfetched row has a chain if and only if some later response differed from that row |
| `LastKnown.ObservingTwiceIsObservingOnce` | backend/hotfix_sync.py:978-1042 | observing the same response again, partial or not, changes nothing and announces nothing |
| `LastKnown.DeadlineChangesAreReal` | backend/hotfix_sync.py:1116-1130 | a deadline change is announced if and only if the response speaks for the deadline, or none was stored, and it differs, and the change is new, worth announcing and not announced before |
| `SyncRun.RowsKeep` | backend/hotfix_sync.py:430-452 | after the rows an item exists exactly if it did or a row named it, and is marked deleted exactly if it was and no row fetched it |
| `SyncRun.RunMarksExactlyTheUnseen` | backend/hotfix_sync.py:788-819 | after a whole run an item of a successful type is marked exactly when no row named it, or it was marked and no row fetched it; items of other types are as the rows left them |
| `SyncRun.NamedItemsStayUnlessUnfetched` | backend/hotfix_sync.py:436-452 | being named keeps an item unmarked if and only if some row fetched it or it was unmarked before |
| `SyncHistory.HistoriesAreSound` | backend/hotfix_sync.py:788-1114 | over every history each event of an observation spans two adjacent snapshots or starts the chain, and no two events share a semantic key |
| `SyncHistory.SecondRunIsSilent` | backend/hotfix_sync.py:430-527 | a second run over the same distinct, fetched rows leaves items and events exactly as they are |
| `SyncHistory.AnnouncedExactlyOnce` | backend/hotfix_sync.py:1088-1100 | a stored change of a known item is announced if and only if it extends a chain or first sightings are announced too, it is worth it, and the same change between the same two contents was never announced before |
| `SyncHistory.TheThirdFlipIsSilent` | backend/hotfix_sync.py:1088-1100 | a concrete history: content going back and forth stores four snapshots and fewer events |
| `Timeline.Choose` | frontend/src/timeline.tsx:174-175 | the chosen track is free if any is, and otherwise one that ends earliest |
| `Timeline.PlaceLabels` | frontend/src/timeline.tsx:167-180 | the loop over the sorted nodes computes the layout, track by track |
| `Timeline.UncrowdedIsSeparated` | frontend/src/timeline.tsx:167-180 | if no label is blocked by three earlier ones of its lane, any two labels on one lane and track are more than 10 apart, whatever the titles and dates |
| `Timeline.GreedyTracksAreOptimal` | frontend/src/timeline.tsx:167-180 | the greedy tracks keep all labels apart if and only if some assignment to three tracks does, and that is when no label is blocked by three earlier ones |
| `TimelineGreedy.EveryLabelIsWellPlaced` | frontend/src/timeline.tsx:167-180 | every label is on the first track of its lane whose last label ends more than 10 before it, and if there is none on the first of those that end earliest, in the widths of the drawing |
| `Timeline.FilterTicks` | frontend/src/timeline.tsx:196-201 | the filter with its running `last` keeps the greedy choice |
| `Timeline.KeptIsAChoice` | frontend/src/timeline.tsx:196-201 | what is kept is a subsequence of the ticks, pairwise at least 68 apart |
| `Timeline.KeptIsLargest` | frontend/src/timeline.tsx:184-201 | no subsequence of the sorted ticks with that spacing is larger than the one kept |

## Left out

- Credential objects are values: wiping their contents, aliasing between callers and the store, and weak references are not modelled; `replace_ntlm` compares an identity number.
- JSON text, Fernet and every hash are injective by construction.
- Vault.CredentialVault.Open: the checks of paths, permissions, key file, size and version that also refuse are left out; a file is readable exactly under its key.
- Wall clock minus monotonic clock is constant within one process.
- `_canvas_modes`, slot status timestamps, bound account ids and fallback notes of the credential store: not persisted and not part of what a restart must restore.
- The normalisers of user names, addresses, URLs and text are taken as already applied.
- Publication.OnePublicationPerGeneration: covers the provider sessions; profile rows, `db.commit` and the Canvas half of `clear_all` are left out, the Canvas compare and set is in `CanvasPublication`.
- SignIn.RunsAreSound: HTTP, origin headers, body limits and probes of the providers are abstract steps that succeed or not.
- `activate_user` of the identity store has no caller in the repository and is not a step; neither are the end-to-end script that deletes a row before its storage and the manual `prepare` command.
- The import lock that only the owner's import sets is a step for slot 1 only.
- ProvisionerCommands.Host.PrepareSlot: one loop over the five parts stands for the source's sequence of statements; ownership, modes and templates are left out.
- Audit rows, password hashes and rate limits other than the login window.
- AnalysisWorker.Worker.RunPending: what the assignment summaries (`run_summaries`) do beyond their count, notifications, stored error texts and review details are left out; the prefilter and the provider are arbitrary.
- Observations.ObservingKeepsTheChain: rows of one external id agree on whether they are files, as Canvas ids name their kind; snapshots are ordered by being appended, not by timestamp.
- Titles, URLs and timestamps of items, the pending queue, and the cached download events of `_sync_file`, whose keys depend on the downloader.
- `classify_change` and `should_emit_change` are arbitrary functions; kinds and importance are proved for Canvas assignments and files, summary texts carry no theorem.
- SyncHistory.TheThirdFlipIsSilent: gives an upper bound on the events, which is what makes the point.
- Timeline.PlaceLabels: takes the nodes already sorted; the built-in sort, time zones and the mapping of dates to coordinates are left out.
- CRUD routes, React components, the downloader, proxying, process supervision and migrations: only easy statements.
