# Verification of the host manager's protocols

A Dafny model of the parts of the host manager whose promises hold over whole runs rather than
single calls, and proofs of those promises. `dafny verify dfyconfig.toml` checks all of it.

**Refresh-token rotation** (`RefreshProtocol`, `RefreshInvariant`, `RefreshTheorems`,
`RefreshLogout`, `RefreshTombstone`, `RefreshRedemption`, `GraceReplay`). Any number of redemptions, revocations and
code exchanges run at once over shared caches. Every cache call is one atomic step, the
compensating restore is a tombstone check and then a Set, every call may fail, and any entry may
vanish at any time. A run is any sequence of actions; an action that is not possible leaves the
state alone. `RefreshInvariant.Inv` is kept by every step, and the theorems follow from it: one
custodian per session lineage, one result per refresh token, the logout theorem, the race between
tombstone and restore, the chain of rotations, and what every undisturbed operation is answered (section 4.14 of RFC 9700; section 10.5 of
RFC 6749 for codes).

**The caches** (`MemoryCache`, `InMemory`, `Valkey`, `TtlMap`, `Decimal`). The in-memory cache keeps
two generations of entries over one LRU list. Cycles and cross-generation evictions leave list
elements that no entry owns, so entries inject into the list rather than match it. Both backends
are classes proved against one plain map with expiries, which is what a surviving class is to its
callers.

**The client registry** (`ClientRegistry`, `RegistryBuilds`, `ClientVeto`). Replicas with arbitrary
clocks merge their configurations through an optimistic transaction of at most sixteen attempts.
The builds are shown to be sequential, and the veto is characterised by the history of
configurations alone.

**Session grants** (`SessionGrants`). A generation key with its own expiry, a grant cache keyed by
it, and one coalesced resolve per replica and key.

**The function pipeline** (`FunctionModel`, `FunctionInvariant`, `FunctionSettles`,
`FunctionGenerator`, `FunctionReconciler`). One reconcile is one atomic step; Jobs, builds, lookups and lost status
writes are its inputs.

**Claims, authorize, path binding, roles** (`Claims`, `Scopes`, `Authorize`, `PathBinding`, `Roles`,
`Text`). What a session signs from login through every rotation, the detours of the authorization
endpoint (section 3.1.2.1 of OpenID Connect Core), the re-matching of route patterns, and the
compiled grants.

Where the code and what it says of itself differ, the model follows the code:

- `internal/auth/exchange.go:956-960` means the tombstone to keep a revoked token dead, and lines
  994-996 keep its key away from real token ids; but the key can itself be presented as a refresh
  token, and that takes the tombstone. `RefreshTombstone.PresentedTombstoneRevives` is the run,
  `RefreshTombstone.RestoreGoesAheadIff` the exact condition.
- `internal/host/binding.go:201` says a placeholder of the pattern always resolves on a matched
  route. It does not when the pattern ends in `{$}`, nor when it ends in a slash and the path goes
  deeper: `PathBinding.PathKeyBoundIff` is exact, `PathBinding.DeeperPathBindsNothing` an input.
- "No revival" needs clocks after the epoch: `ClientVeto.ClientPassesIff` is exact and
  `ClientVeto.EpochClocksRevive` is the counterexample. It also does not reach configured clients
  whose id begins with `dcr_`, which are never recorded: `ClientVeto.DynamicNamesAreNotCutOff`.
- The two cache backends agree on counters as the host writes them, not on every text memory can
  parse: `Valkey.BackendsDifferOnNonCanonical`.
- The freshness of session grants does not extend to a request whose own generation read failed:
  `SessionGrants.FailedReadCanBeStale`.
- A generator the spec names is not the one codegen runs under a plain source whose inputs drift:
  it is the last one resolved. `FunctionInvariant.CodegenHasGenerator` says where it is the spec's,
  `FunctionGenerator.PlainSourceKeepsOldGenerator` is the run where it is not.
- A function does not always come to rest in Ready: it does so exactly when it is not `Restless`
  (`FunctionSettles.Settles`, `NeverSettles`, `RestlessRound`), and an empty revision from codegen
  leaves it stuck (`FunctionSettles.StuckWithoutRevision`, `ReachesStuck`).

## Model

| member | source | states |
|---|---|---|
| RefreshInvariant.KeepApply | internal/auth/exchange.go:1604-1896 | every step of every redemption, restore, revocation, login, code exchange, clock tick or eviction keeps the protocol invariant |
| RefreshTheorems.SingleCustody | internal/auth/exchange.go:1604-1896 | in every interleaving a lineage has at most one of a stored record and a redemption holding its consumed record |
| RefreshTheorems.CodeOpensOneLineage | internal/auth/exchange.go:1445-1576 | an authorization code opens at most one lineage, only if it was issued, and is then gone |
| RefreshTheorems.OneResultPerToken | internal/auth/refreshgrace.go:105-235 | all callers that succeed with one refresh token get the same token set and present the client it was issued to; at most one of them minted; no replay is later than the configured window or 60 s after publication |
| RefreshTheorems.ReplayNeedsWindow | internal/auth/exchange.go:268-301 | without a positive grace window nothing is ever replayed |
| RefreshProtocol.ClampGraceWindow | internal/auth/exchange.go:268-284 | the window in force is never over the ceiling or the request, and zero exactly for a request that is not positive |
| RefreshTheorems.RotationChain | internal/auth/exchange.go:1827-1844 | lineages do not fork; subject, client, method, scope and first issue time stay those of the first token; every mint reports that scope and was validated before expiry and within maxSessionAge of login |
| RefreshRedemption.NewTokensAreFresh | internal/auth/exchange.go:1002-1021 | in every run a token a step issues is issued at that step's time and expires one refresh term later, its entry one cache term later, with the session of the token it replaces or the grant it opens |
| RefreshRedemption.RedemptionIsAnswered | internal/auth/exchange.go:1604-1896 | in every run an undisturbed redemption is answered as it deserves: accepted exactly in time, for its client and with every check passing, with the old token gone, the new one stored and the answer published; refused, with the token gone and nothing issued; after a fault, with the record back until its own expiry |
| RefreshRedemption.LateCallerReplays | internal/auth/refreshgrace.go:179-235 | a later presentation is handed the published answer if it is the client's own, and refused otherwise |
| RefreshRedemption.LoserWaitsForWinner | internal/auth/refreshgrace.go:126-136 | a presentation while the winner is in flight sees its marker and waits |
| RefreshRedemption.UnknownTokenIsRefused | internal/auth/exchange.go:1618-1668 | a key neither stored, in flight nor published is refused |
| RefreshRedemption.GivenUpIsRetryableIff | internal/auth/exchange.go:1638-1668 | a caller that gave up polling is told to retry if and only if the record is back |
| RefreshRedemption.ExchangeIsAnswered | internal/auth/exchange.go:1445-1576 | an undisturbed exchange opens a lineage if and only if its code is stored, in time and accepted, and the code is gone either way |
| RefreshRedemption.IssuedCodeIsLive | internal/auth/exchange.go:1955-2010 | an issued code is stored for fifteen minutes |
| RefreshRedemption.LogoutIsComplete | internal/auth/exchange.go:947-982 | an undisturbed logout leaves no record, a tombstone for five minutes and no grace record of the token or its predecessor |
| RefreshTheorems.StoredRecordNeverChanges | internal/auth/exchange.go:2365-2396 | however often a record is consumed and restored, what is stored under a token is what was issued, expiry included |
| RefreshLogout.Logout | internal/auth/exchange.go:947-982 | a revocation that found the record of a token some caller was handed ends its lineage in every continuation, and once its grace deletes succeeded no later presentation of the token or its predecessor succeeds |
| RefreshLogout.NoNewAnswers | internal/auth/refreshgrace.go:179-235 | after such a logout no continuation gives any redemption of the token or its predecessor an answer it did not have |
| RefreshTombstone.TombstoneBeatsRestore | internal/auth/exchange.go:961-999 | if a tombstone stands when the redemption holding the token makes its check, no continuation ever stores or holds a token of that session again |
| RefreshTombstone.RestoreGoesAheadIff | internal/auth/exchange.go:2365-2396 | in every run the restore goes ahead if and only if the issued record has time left and the check's read fails or no tombstone stands: none written, five minutes over, evicted, or its own key presented as a token since |
| RefreshTombstone.VisibleIffStands | internal/auth/exchange.go:961-999 | what the cache shows of a tombstone is what the events of the run say: a write within five minutes and no eviction or presentation since |
| RefreshTombstone.PresentedTombstoneRevives | internal/auth/exchange.go:1604-1640 | a run without failure, eviction or passing time in which a presented tombstone lets a restore undo a finished revocation |
| GraceReplay.ReplayFromGrace | internal/auth/refreshgrace.go:179-235 | the poll answers with a result if and only if it reaches one of the caller's client, refuses another client's, gives up after three empty reads, a vanished marker or ten reads |
| Scopes.GrantedScopeIsFixpoint | internal/auth/exchange.go:2124-2158 | splitting, filtering and joining a granted scope gives it back |
| Text.FieldsOfJoin | internal/auth/exchange.go:2124-2158 | splitting on white space undoes joining with spaces, for every list of words |
| TtlMap.BudgetHolds | internal/cache/cache.go:110-117 | on the plain map a counter set to a budget is decremented successfully at most that often until it is set again, whatever else happens and whatever the clocks show |
| InMemory.RunRefinesPlainMap | internal/cache/memory.go:319-361 | over every run, Cycles included, a surviving class without an item bound has the plain map's contents, and the same decrements succeed |
| InMemory.MemoryBudget | internal/cache/memory.go:149-197 | the budget theorem of the in-memory cache |
| Valkey.RunRefinesPlainMap | internal/cache/valkey.go:72-162 | over every run of commands, Cycles, server expiries and others' writes, a surviving class is the same plain map, where its values are ones both decrements agree on |
| Valkey.ServerBudget | internal/cache/valkey.go:134-162 | the budget theorem of the server's counters, whatever text other keys hold |
| Decimal.ParseOfFormat | internal/cache/memory.go:177-197 | reading back a written 64-bit counter gives its value |
| MemoryCache.EntriesAtMostElements | internal/cache/memory.go:227-270 | when every entry owns a distinct list element, entries across generations are at most the elements |
| MemoryCache.SetKeyByKey | internal/cache/memory.go:227-270 | a Set stores the value in the current generation and takes nothing else but, of a full cache, what is under the list's last key |
| MemoryCache.RemovalKeyByKey | internal/cache/memory.go:36-49 | a delete takes the key from every generation, a reap exactly what has expired |
| MemoryCache.TouchedIsFirst | internal/cache/memory.go:87-137 | what is read becomes the last to be evicted |
| MemoryCache.CycleKeyByKey | internal/cache/memory.go:319-361 | an unforced Cycle keeps every entry of the generation that was current and a read still finds it; a forced one keeps none |
| InMemory.AlwaysBounded | internal/cache/memory.go:227-287 | over every run of operations entries are at most the list, the list at most maxItems when that is positive, and generations at most two, one for a surviving class |
| InMemory.KeepOps | internal/cache/memory.go:87-137 | every run of Set, lookups, deletes, decrements, reaps and Cycles keeps the injection of entries into the list |
| InMemory.InMemoryCache.Set | internal/cache/memory.go:227-270 | the value is stored with its own expiry, refreshing, or evicting and inserting; on a surviving class it is the plain map's Put |
| InMemory.InMemoryCache.Update | internal/cache/memory.go:208-220 | the function sees the current generation's live value, and its answer alone decides the write |
| InMemory.InMemoryCache.Lookup | internal/cache/memory.go:87-137 | the two-generation walk; on a surviving class a Get, or a Take when it evicts |
| InMemory.InMemoryCache.DecrementIfPositive | internal/cache/memory.go:149-197 | one live positive counter goes down by one with its expiry kept; otherwise nothing changes |
| InMemory.InMemoryCache.Delete | internal/cache/memory.go:36-49 | the key leaves every generation with its elements and nothing else changes |
| InMemory.InMemoryCache.Reap | internal/cache/memory.go:272-287 | exactly the expired entries go, with their elements |
| InMemory.InMemoryCache.Cycle | internal/cache/memory.go:319-361 | at most two generations remain; a surviving class is not changed, forced or not |
| Valkey.ValkeyCache.Get | internal/cache/valkey.go:72-93 | current generation, then previous; on a surviving class the plain map's Get |
| Valkey.ValkeyCache.GetAndDelete | internal/cache/valkey.go:99-127 | the entry found is removed from the generation it was found in; on a surviving class the plain map's Take |
| Valkey.ValkeyCache.Set | internal/cache/valkey.go:164-238 | the value is live exactly up to its own TTL, or the class's, or always without expiry; the write is the plain map's Put |
| Valkey.ValkeyCache.Delete | internal/cache/valkey.go:39-58 | the key goes from both prefixes; on a surviving class the plain map's Remove |
| Valkey.ValkeyCache.DecrementIfPositive | internal/cache/valkey.go:134-162 | succeeds exactly on a live positive counter in canonical text, and then is the plain map's decrement |
| Valkey.ValkeyCache.Cycle | internal/cache/valkey.go:260-291 | no Cycle moves a surviving class's prefix or its contents |
| Valkey.PrefixesAreDisjoint | internal/cache/valkey.go:289-293 | no two hosts, classes or generations share a key |
| Valkey.FormatIsCanonical | internal/cache/memory.go:177-197 | a counter as the host writes it is in the text both backends decrement |
| Valkey.BackendsDifferOnNonCanonical | internal/cache/valkey.go:134-140 | counters memory would decrement and the script would not |
| ClientRegistry.MergeClientRegistry | internal/auth/client_registry.go:216-247 | the merge as a function of records, configuration and clock; changed if and only if the registry differs; which ids are recorded, re-added and removed |
| ClientRegistry.UnchangedIffReflected | internal/auth/client_registry.go:118-131 | a merge changes nothing if and only if the present ids are the configuration, whatever the clock |
| ClientRegistry.MergeKeeps | internal/auth/client_registry.go:187-215 | present is membership in the configuration, no record is dropped, no cutoff goes back, and merging again changes nothing |
| RegistryBuilds.BuildsAreSequential | internal/cache/valkey.go:178-218 | under any interleaving of WATCH, read and EXEC the store is the merges that reached it in sequence, one per build; a build that succeeds returns the sequential registry of a point within its own run; an unreadable store is never overwritten |
| RegistryBuilds.NothingIsLost | internal/auth/client_registry.go:91-190 | between any two points of a run no record is dropped and no cutoff goes back, and the present ids are those of the last merge |
| RegistryBuilds.FailuresHaveReasons | internal/cache/valkey.go:188-215 | a build fails only if a command was not answered, the store is unreadable, or all sixteen attempts were aborted |
| RegistryBuilds.LostOnlyToRivals | internal/cache/valkey.go:200-210 | an attempt is lost only to the server's abort or another build's write |
| RegistryBuilds.UndisturbedBuildSucceeds | internal/auth/client_registry.go:111-190 | an undisturbed build over a readable store returns and stores the merge of what it found |
| ClientVeto.ClientPassesIff | internal/auth/subject_kind.go:190-236 | a Client credential passes an Exchanger if and only if its client is configured and every stamped removal or re-add merged so far is earlier than its issue time or not after the epoch |
| ClientVeto.NoRevival | internal/auth/subject_kind.go:211-219 | for positive clocks a credential issued at or before a removal or re-add is refused by every Exchanger built from then on |
| ClientVeto.OnceAClient | internal/auth/subject_kind.go:29-67 | an id names a client if and only if it has the dynamic prefix or was ever configured; it then never classifies as User again, nor does a credential that recorded no kind; a recorded kind is carried |
| ClientVeto.DynamicNamesAreNotCutOff | internal/auth/client_registry.go:96-101 | a configured client with the dynamic prefix is never recorded, so removing and re-adding it refuses nothing |
| ClientVeto.EpochClocksRevive | internal/auth/subject_kind.go:215-217 | a run of three builds at clocks not after the epoch after which a credential issued before the removal passes |
| SessionGrants.OverlaysAreCurrent | internal/auth/session_grants.go:154-226 | across replicas and coalesced flights a request whose generation read did not fail gets a grant resolved under at least the bumps in force at that read; any overlay is at most a flight and 69 s old; one resolve at a time per replica and key |
| SessionGrants.AnswersFollowResolves | internal/auth/session_grants.go:176-226 | in every run a request is left as it was only if the resolve it waited for failed, has exactly its resolve's grant if that answered it, and is never overlaid with another subject's |
| SessionGrants.WaitingIsAnswered | internal/auth/session_grants.go:218-226 | a request whose resolve has landed is overlaid with its grant if and only if it succeeded, and left as it was if and only if it failed |
| SessionGrants.ArrivalLooksUp | internal/auth/session_grants.go:154-169 | a request is overlaid from the cache if and only if a live grant is under the generation in force and its subject |
| SessionGrants.ColdRequestIsResolved | internal/auth/session_grants.go:176-217 | a request that finds nothing gets what is resolved now, which is cached for 51 to 69 seconds |
| SessionGrants.BusyRequestJoins | internal/auth/session_grants.go:176-220 | a request that finds a resolve under way joins it, and keeps its frozen token if it fails |
| SessionGrants.ReadCovers | internal/auth/session_grants.go:19-27 | after an error-free read nothing older than the last bump can be picked up, also once the key expired back to empty |
| SessionGrants.FailedReadCanBeStale | internal/auth/session_grants.go:19-27 | the counterexample for a failed generation read |
| SessionGrants.JitteredTtl | internal/auth/session_grants.go:267-270 | a grant lives between 51 and 69 seconds |
| SessionGrants.KeysAreUnique | internal/auth/session_grants.go:37-49 | tokens of different bumps and keys of different subjects differ, and no token is the empty generation |
| SessionGrants.Session.OverlayScopedClaims | internal/auth/session_grants.go:239-248 | the in-place edit is the overlay function |
| SessionGrants.OverlayNarrows | internal/auth/session_grants.go:239-248 | only roles and entitlements change, each present exactly when in scope and projected, and a later overlay erases an earlier one |
| FunctionInvariant.PipelineIsSound | internal/controller/kdexfunction_controller.go:116-345 | in every run from creation ExecutableAvailable, FunctionDeployed and Ready have an executable, the current spec's own if it names one, the last two a URL; the Ready condition is True only in Ready; and a pass panics only if the host has no domain or a build reports success without an image, never for want of a generator |
| FunctionInvariant.CodegenHasGenerator | internal/controller/kdexfunction_controller.go:1108-1330 | in every run the codegen branch is entered only with a resolved generator, and with the spec's own where the spec names one and leaves the source to codegen |
| FunctionInvariant.ChangesStartOver | internal/controller/kdexfunction_controller.go:180-182 | after a pass over a newer spec or another adaptor the function is no longer deployed |
| FunctionGenerator.GeneratorIsTheSpecs | internal/controller/kdexfunction_controller.go:1035-1085 | a pass changes the generator only where the source is left to codegen, to the spec's own or else the adaptor's default |
| FunctionGenerator.PlainSourceKeepsOldGenerator | internal/controller/kdexfunction_controller.go:1031-1034 | the run in which codegen runs an earlier spec's generator |
| FunctionSettles.Settles | internal/controller/kdexfunction_controller.go:274-328 | with spec and adaptor frozen and everything the function needs succeeding, one that is not restless is at rest in Ready within its measure, at most 33 reconciles |
| FunctionSettles.Progress | internal/controller/kdexfunction_controller.go:915-942 | each such reconcile lowers the measure, or leaves a status at rest exactly as it is |
| FunctionSettles.NeverSettles | internal/controller/kdexfunction_controller.go:306-311 | one that is restless never is |
| FunctionSettles.ReadyPass | internal/controller/kdexfunction_controller.go:1803-1869 | a reconcile leaves a Ready status exactly as it is if and only if nothing drifted and the source is recorded; otherwise the measure falls |
| FunctionSettles.SettledServes | internal/controller/kdexfunction_controller.go:1803-1869 | at rest the spec's own executable or the latest image is served, at a URL, generated from the current inputs |
| FunctionSettles.RestlessRound | internal/controller/kdexfunction_controller.go:306-311 | an executable beside a drifted source: three reconciles return the status they began with |
| FunctionSettles.StuckWithoutRevision | internal/controller/kdexfunction_controller.go:1332-1376 | without a source to build from no reconcile leaves SourceAvailable |
| FunctionSettles.ReachesStuck | internal/controller/kdexfunction_controller.go:1250-1274 | every function that needs codegen is brought there by three passes from creation in which codegen reports an empty revision |
| FunctionSettles.AlwaysBuildable | internal/controller/kdexfunction_controller.go:1250-1274 | codegen that never reports an empty revision never leads there |
| FunctionModel.DecodeUrl | internal/controller/kdexfunction_controller.go:1913-1924 | a decoded URL is never empty |
| FunctionReconciler.KDexFunction.Reconcile | internal/controller/kdexfunction_controller.go:116-345 | the in-place reconcile takes the model's pass, keeps the invariant, panics only at a faulty answer, and in good surroundings lowers the measure or leaves a status at rest alone |
| FunctionReconciler.KDexFunction.OnBuildValid | internal/controller/kdexfunction_controller.go:1108-1330 | keeps the invariant's parts; leaves for SourceAvailable with what codegen reported and its inputs recorded, or with the pinned revision, or else the spec's source; never touches generator or URL; leaves when codegen succeeds |
| FunctionReconciler.KDexFunction.OnSourceAvailable | internal/controller/kdexfunction_controller.go:1332-1550 | changes only the executable, leaves only with the spec's own or the image of a build that had a source, and leaves when the build succeeds |
| FunctionReconciler.KDexFunction.OnExecutableAvailable | internal/controller/kdexfunction_controller.go:1616-1762 | deploys only with an executable, changing only the URL to the deployer's non-empty answer; a status without one is repaired from the spec or goes back to OpenAPIValid |
| FunctionReconciler.KDexFunction.OnReady | internal/controller/kdexfunction_controller.go:1803-1869 | stays in Ready, recording a missing source and never replacing one; the condition is True exactly when the source was recorded and the deployment is there |
| FunctionReconciler.KDexFunction.OnOpenAPIValid | internal/controller/kdexfunction_controller.go:1019-1106 | leaves for codegen only with the spec's generator, or else the adaptor's default; for the executable exactly when the spec names one, and with that one; touches neither source, URL nor recorded inputs |
| Claims.RotationPreservesMeaning | internal/auth/exchange.go:2264-2316 | after any number of rotations every claim that is not reserved and every claim the mint owns is there exactly when it was at login, with the same meaning |
| Claims.ListsDoNotCompound | internal/auth/exchange.go:2422-2439 | after any number of rotations roles and entitlements are the list the provider asserted followed by the fresh one, exactly |
| Claims.ReservedAreTheMints | internal/auth/exchange.go:2032-2070 | whatever a backend or snapshot holds, subject, method, kind, provider and scope are the mint's and no other reserved claim is signed |
| Claims.BackendOnlyAdds | internal/auth/exchange.go:2061-2070 | a backend claim is signed if and only if it is neither reserved nor already there |
| Claims.MintFromSubject | internal/auth/exchange.go:2264-2316 | the step-by-step mint produces the rotation context and the granted scope |
| Claims.MergeIdpList | internal/auth/exchange.go:2422-2439 | a list of strings, one string, every string of a decoded list in order, or nothing, then the host's own |
| Claims.AssertedIsListed | internal/auth/exchange.go:2422-2439 | the list taken from a claim is exactly the one it asserts, position by position |
| Claims.LoginScope | internal/auth/exchange.go:785-786 | a browser login is granted every supported scope |
| Claims.AssertedSurvives | internal/auth/exchange.go:2416-2421 | storing a claim as JSON does not change the list it asserts |
| Claims.IdpClaimSnapshot | internal/auth/exchange.go:2405-2414 | exactly the claims that are not reserved |
| Claims.SigningContext.MergeBackendClaims | internal/auth/exchange.go:2061-2070 | the loop over the backend's claims adds, never overwrites |
| Claims.SigningContext.ApplyScopeFilter | internal/auth/exchange.go:2124-2158 | grants the supported scopes requested, in order, and overwrites or clears the scope claim |
| Authorize.AtMostThreeVisits | internal/auth/oauth2.go:170-287 | the flow visits authorize at most three times and ends in a code or an error; a code names somebody, and for a client that needs consent the user allowed it |
| Authorize.CodeIff | internal/auth/oauth2.go:84-287 | a visit issues a code if and only if the parameters are in order, somebody counts as signed in, no fresh login is asked for, the hint is empty or names the account, the session is not revoked, and consent is there and not asked for again |
| Authorize.ToLoginIff | internal/auth/oauth2.go:183-276 | when a visit goes to the login page, exactly |
| Authorize.ConsentPageIff | internal/auth/oauth2.go:278-286 | when a visit shows the consent page, exactly |
| Authorize.ErrorsIff | internal/auth/oauth2.go:165-276 | when a visit answers each error, exactly |
| Authorize.DetourCarries | internal/auth/oauth2.go:338-355 | the provider gets the hint and the prompt values it can act on; the return query keeps everything else and drops exactly what a login satisfies |
| Authorize.LoginIsFinal | internal/auth/oauth2.go:338-355 | after a login that succeeds nothing sends the browser to the login page again |
| Authorize.AllowIsFinal | internal/auth/oauth2_consent.go:153-194 | after an Allow the next visit issues the code |
| Authorize.AllowedFlowIssuesCode | internal/auth/oauth2.go:170-320 | an acceptable request without prompt=none whose user allows it gets its code |
| Authorize.SilentShowsNothing | internal/auth/oauth2.go:165-280 | prompt=none takes one visit and shows neither page |
| Authorize.ThreeVisitsHappen | internal/auth/oauth2.go:170-287 | three is tight: signed out and without consent on record it takes three |
| Authorize.PromptWithout | internal/auth/authorize_request.go:52-66 | what is left of the prompt is exactly its values that were not dropped, in order |
| Authorize.RemovePrompts | internal/auth/authorize_request.go:52-66 | the edited copy is the query without those prompt values |
| PathBinding.RematchReturnsValues | internal/host/binding.go:32-86 | for every pattern, with or without a catch-all, and every assignment of non-empty values, re-matching the escaped path returns each value exactly |
| PathBinding.DecodeOfEscape | internal/host/binding.go:81-86 | one decode undoes every escaping that keeps neither '%' nor '/' raw |
| PathBinding.PathKeyBoundIff | internal/host/binding.go:174-249 | on a matched route an undeclared placeholder is bound if and only if the pattern does not end in {$} and, if it ends in a slash, the path goes no deeper |
| PathBinding.DeeperPathBindsNothing | internal/host/binding.go:32-52 | /s/{id}/ matches /s/7/f and leaves id unbound |
| PathBinding.UnboundIsDeclared | internal/host/binding.go:200-207 | where that holds an unbound key is one the operation declares a chain for |
| PathBinding.BindFailureIsClientError | internal/host/binding.go:208-233 | true if and only if some key is unbound and every unbound key has a header or query source |
| PathBinding.ResolveBinding | internal/host/binding.go:174-185 | binds exactly the keys that resolve, to what they resolve to |
| PathBinding.LinkReadsItsPlace | internal/host/binding.go:251-274 | a query link binds the query's value, a header link the header's, exactly when it is not empty; a path link the segment's |
| PathBinding.FirstLinkWins | internal/host/binding.go:235-243 | the first link of a chain that has a value wins |
| PathBinding.UnnamedIsUnbound | internal/host/binding.go:54-65 | a name the pattern does not have is never bound from the path |
| PathBinding.PlaceholderKeys | internal/host/binding.go:282-309 | exactly the declared keys and the pattern's placeholders, each once |
| PathBinding.SplitPath | internal/host/binding.go:67-76 | the non-empty pieces, in order |
| Roles.ResolveRoles | internal/auth/roles.go:490-530 | the roles are those of the matching bindings that admit the kind, the same with and without a names collector; the names split the matching bindings |
| Roles.RoleResolvedIff | internal/auth/roles.go:95-97 | a role is resolved for a kind if and only if some considered binding lists it and is not narrowed or names that kind, a known one |
| Roles.BoundIff | internal/auth/roles.go:490-530 | the bindings considered are those written for the key and those whose pattern matches it |
| Roles.NamesIff | internal/auth/roles.go:499-509 | the names collected are those of the bindings that admit the kind, and of those that do not |
| Roles.UnknownKindIsLeast | internal/auth/roles.go:95-97 | an unknown kind's roles are a subsequence of any kind's for the same bindings |
| Roles.UnknownKindRoles | internal/auth/roles.go:95-97 | they are exactly the roles of the bindings that are not narrowed |
| Roles.BuildMappingTable | internal/auth/roles.go:431-474 | every role has an entry, holding exactly the grants the rules of the last role of that name write |
| Roles.GrantsMeanWhatTheySay | internal/auth/roles.go:392-474 | every structured grant splits on ':' into a triple its rules write, and no opaque scope does |

## Left out

- HTTP, cookies, headers, logging, event hooks, LDAP and HTTP lookups: their answers are inputs.
- Cryptography, token formats, PKCE, the signer's projection, claim mappings and the entitlements checker: not part of this model.
- Randomness: new token ids, code ids and generation nonces are fresh; the clock of the rotation and grant protocols is one monotone clock after the epoch's first second, while registry clocks are arbitrary.
- A cache write that fails is taken to write nothing, except for the registry's EXEC, which may commit and lose its reply.
- RefreshProtocol.ClampGraceWindow: the refusal to open the grace cache for other reasons is not modelled.
- RefreshTheorems.RotationChain: the provider's claims and the upstream token in a record are not carried by the protocol's records; Claims models them, without upstream refresh.
- RefreshLogout.Logout: liveness of grace replay is not claimed; a late clear of a rolled-back redemption may delete a published record.
- GraceReplay.ReplayFromGrace: a cancelled caller is a failed read.
- InMemory.AlwaysBounded: maxItems and ttl are fixed for a cache's life; GetCache's changes of them, and which entry is least recently used, are not modelled.
- Valkey.ValkeyCache.DecrementIfPositive: counts above 2^53, where the script's arithmetic is not exact, are taken as exact; server errors of single commands are not modelled.
- ClientRegistry.MergeClientRegistry: the order of the removed list, which is sorted for the log, is not stated.
- RegistryBuilds.BuildsAreSequential: the registry key is not evicted or written by anyone else, its JSON is a decoded registry or an unreadable value, and the build without a cache manager is not modelled.
- SessionGrants.OverlaysAreCurrent: a flight lasts at most a bound that with 69 s stays under 24 h; the generation key is not evicted before its expiry; the jitter is over real numbers; that coalesced requests share the first one's claims, and the sessions the refresh skips or strips (capabilities, other kinds, client names), are not modelled.
- FunctionSettles.Settles: a panic is taken to return after the deferred write; service-backed functions, builder merging, object construction, condition messages and job cleanup are not modelled; conflicts on the status write are, as lost writes.
- Authorize.AtMostThreeVisits: encoding and parsing of URLs, a failing revocation check or client lookup, the checks on the consent POST other than its decision and the eviction of old consents are not modelled; case folding of email addresses is a parameter.
- PathBinding.PathKeyBoundIff: the router's own matching is not modelled, only the number of segments it implies; patterns are paths, without method or host.
- Roles.ResolveRoles: regular expressions are predicates on the key.
- Client authentication, client_credentials, token exchange, API tokens, dynamic registration, CLI tools, pages and OpenAPI output.
