# AFI gateway: verified model

AFI is a gateway for language models. A control plane turns configuration into immutable snapshots, a data plane serves
requests from them, and a hub hands its configuration to regional installations. This Dafny project models the parts of
that program whose correctness spans several functions, many steps or concurrent requests, and proves what they promise.
`dafny verify dfyconfig.toml` checks everything.

| Module | Models |
|---|---|
| `Federation` | pull-sync between hub and region: torn export reads, staged applies, failures at any step, unacknowledged cursor writes |
| `Snapshot`, `Regions`, `Attempts` | the snapshot compiler, its composite keys and lookups, the region builder, attempt lists |
| `RegionPreservation`, `RegionOverlays`, `RegionProviders` | what an organization sees in a regional snapshot, compared with the global one, or with its overlay; where a region's providers come from |
| `QuotaAdmission`, `Gate`, `GateRuns`, `TagQuota` | quota counters under concurrency, the gates of a call, the gate as a run of the concurrent system, the tag quota hook |
| `Failover`, `FailoverPaths`, `Backoff` | the retry and failover loops of chat and audio, the waits between tries |
| `Bedrock`, `BedrockClients` | streaming and non-streaming mapping of the Bedrock Converse protocol; what an OpenAI-style client and the Gemini dialect writer make of the stream |
| `PolicyEngine`, `PolicyRules` | selection, order and execution of an organization's policies; what they decide, in terms of their actions as configured |
| `Usage`, `UsageMerging` | usage summaries, merging of newest records, merging of reports and the comparison that sorts them |
| `Replay` | the replay store and freshness window of signed requests |
| `Tenancy`, `OwnershipRuns` | membership services, and ownership over whole runs with overlapping changes |
| `Collections`, `Sorting`, `Strings`, `Runs` | index maps, stable sorting, composite keys, finite runs |

Code that changes state step by step is written as methods and classes that are proved equal to specification functions;
the theorems are about those functions or about the runs they generate. Expression evaluation, configuration parsers,
duration parsing, upstream calls, sleeping, credential binding, the provider catalogue, routing strategies, calendars and
store failures are parameters, so each theorem holds for every behaviour of theirs.

Where a promise does not hold of the code, the code is kept, a lemma shows a concrete case, and another says exactly
when the promise holds:

* A region takes its providers from a pool that holds those of every overlay. An overlay's provider replaces the base
  provider of the same id for all organizations of the region (`RegionPreservation.RoutesPreserved`,
  `RegionProviders.ChatAttemptsPreservedIff`, `RegionPreservation.OverlayProviderReachesOtherOrganizations`), even when
  its own organization is not bound there
  (`RegionProviders.ProviderOriginIff`, `RegionProviders.UnboundOverlayProviderIsPresent`).
* A cursor write that takes effect and still reports an error lets the cursor move back; the region stays consistent
  (`Federation.CursorNeverDecreasesIff`, `Federation.FailedPullKeepsCursorIff`, `Federation.CaughtUpMeansInSync`).
* The chat loop can report a result while holding none, unless it has one target and one try
  (`Failover.ChatDeliversNothingIff`, `Failover.ChatCanDeliverNothing`).
* The non-streaming Bedrock mapper decodes a tool's input and encodes it again, the stream hands its text on. So the
  texts agree only for input in the mapper's own encoding (`BedrockClients.StreamingAgreesIff`,
  `BedrockClients.StreamingDisagreesOnLayout`). As long as encoding again keeps the value, a client that decodes arguments
  gets the same exactly when every tool has input that decodes (`BedrockClients.DecodedStreamingAgreesIff`,
  `BedrockClients.StreamingDisagreesWithoutInput`), and through the Gemini dialect writer, which turns anything else into
  an empty object, streaming always agrees (`BedrockClients.GeminiStreamingAgrees`).
* Quota resolution does not compare organizations, and a user's quota may be set by any organization the user belongs to
  (`internal/gatewayconfig/service.go:30-31`). So it can decide for the user's key of another organization, and stops
  doing so in a region where its own is not bound (`RegionPreservation.OwnQuotasPreservedIff`,
  `RegionPreservation.SharedUsersQuotaDecides`).
* Merging two usage reports can panic: the comparison that sorts them reads the fifth byte of a name without looking at
  its length (`UsageMerging.SortsIff`, `UsageMerging.MergedReportIsReportOfAll`, `UsageMerging.MergeCanPanic`), and it is
  not an order (`UsageMerging.ComparisonIsNoOrder`). Only model and key names can bring this about
  (`UsageMerging.RegularGroupingsAreComparable`).
* A signed request can be accepted twice: the time-to-live of the replay store is just as long as the freshness window,
  so that any delay between the age check and the store's clock reading, or any lag between store readings, is enough,
  and without them both end points of the window when both are inclusive (`Replay.NoneIsAcceptedTwiceIff`).
* Role changes check and write in separate steps, so overlapping ones can leave two owners, or a team with none
  (`OwnershipRuns.OneOwnerIffChangesDoNotOverlap`, `OwnershipRuns.OwnedIffChangesDoNotOverlap`).

Composite keys need leading parts without colons; `Strings.Key2CollidesIff` says exactly which parts collide. Generated
ids are a prefix and hexadecimal digits (`internal/adapters/postgres/platform_store.go:905`), and with such scope ids
assignment keys are unambiguous whatever the provider type is (`Strings.Key3InjectiveAnyType`).

## Model

| member | source | states |
|---|---|---|
| `Federation.RunKeepsInv` | internal/federation/apply.go:22-55 | along every run of hub, export and apply steps, failed ones and unacknowledged cursor writes included, the cursor and what the puller holds stay tied to the hub revision |
| `Federation.CaughtUpMeansInSync` | internal/federation/export.go:32-73 | over every run, unacknowledged cursor writes included: when the cursor is positive and equals the hub revision and no mutation awaits its bump, the regional tables and snapshot content equal the hub's |
| `Federation.CursorNeverDecreasesIff` | internal/adapters/federationclient/pull.go:13-40 | the cursor never goes back on any run if and only if every cursor write that takes effect is acknowledged |
| `Federation.UnacknowledgedWriteMovesBack` | internal/adapters/federationclient/pull.go:13-40 | a first round whose cursor write is applied and reported as failed: the cursor goes from 1 to 0 |
| `Federation.RestingCursorNeverDecreases` | internal/adapters/federationclient/pull.go:13-40 | whatever fails, between rounds the cursor never goes back and never passes the hub revision |
| `Federation.ApplyTwiceIsApplyOnce` | internal/federation/apply.go:32-54 | applying an export again changes nothing but local version numbers |
| `Federation.AppliedExport` | internal/federation/export.go:45-48 | a since-skip export touches no table, any other brings the region in sync; the cursor becomes the hub revision |
| `Federation.BuildRegionExport` | internal/federation/export.go:23-74 | from a hub that stands still: its whole content, or no table at all for a peer whose cursor is positive and not behind |
| `Federation.RegionalStore.ApplyExport` | internal/federation/apply.go:22-55 | malformed exports change nothing; tables in order, cursor last; after an error at any stage exactly the earlier stages have been written, and the cursor as well when its write went unacknowledged |
| `Federation.RegionalStore.PullOnce` | internal/adapters/federationclient/pull.go:13-40 | exactly when a round succeeds; it sets the cursor to the hub revision, and a failed one leaves it where it was and is marked as failed, unless the cursor write went unacknowledged or the failure could not be recorded |
| `Federation.FailedPullKeepsCursorIff` | internal/adapters/federationclient/pull.go:13-40 | a failed round keeps the cursor exactly unless it reached an unacknowledged cursor write, failed to record the failure, and the hub had moved on |
| `Federation.PullIsRun` | internal/adapters/federationclient/pull.go:13-40 | every pull round with any faults is a run of the transition system |
| `Federation.UndisturbedRoundSyncs` | internal/adapters/federationclient/pull.go:13-40 | from every reachable state at rest one undisturbed round without faults brings the region in sync |
| `Federation.TrimObjectPrefix` | internal/federation/export.go:76-89 | the prefix without its leading and trailing slashes, "snapshots" when nothing is left |
| `Collections.IndexIsLastMatch` | internal/snapshot/compile.go:34-135 | an index map answers exactly as a backwards scan of the list it was built from |
| `Collections.BuildIndex` | internal/snapshot/compile.go:34-135 | the compiler's loops: each key maps to the last row that claims it |
| `Strings.Key2Injective` | internal/snapshot/types.go:221-231 | "::" keys of colon-free first parts determine both parts |
| `Strings.Key3Injective` | internal/snapshot/types.go:345-347 | assignment keys of colon-free type and scope determine all three parts |
| `Strings.Key3InjectiveAnyType` | internal/snapshot/types.go:345-347 | assignment keys of colon-free scope and id determine all three parts whatever the provider type is |
| `Strings.Key2CollidesIff` | internal/snapshot/types.go:221-231 | two different leading parts can share a key exactly when one of them, with its separator, is a prefix of the other with its separator |
| `Strings.TrimsOnlySpace` | internal/snapshot/types.go:148-165 | trimming takes white space off both ends and nothing else |
| `Snapshot.Compile` | internal/snapshot/compile.go:34-135 | the snapshot of the compiler's loops is the specification snapshot, sandboxed hooks and object stores included |
| `Snapshot.CompileRegion` | internal/snapshot/compile.go:137-146 | the same with the allowlist of the region |
| `Snapshot.AllowsOrganization` | internal/snapshot/compile.go:148-165 | no allowlist admits everyone, an allowlist exactly its trimmed non-empty members |
| `Snapshot.LookupRouteIsScan` | internal/snapshot/types.go:297-311 | route lookup returns the last source route of the pair, when its provider exists |
| `Snapshot.ApiKeyIsScan` | internal/snapshot/types.go:233-239 | a key is the last one with its hash, which is not empty |
| `Snapshot.SigningKeyIsScan` | internal/snapshot/types.go:241-250 | a signing key is the last one with the trimmed id, while active |
| `Snapshot.McpIsScan` | internal/snapshot/types.go:313-327 | an alias leads to the last enabled backend of the organization under it, in the last version of its id |
| `Snapshot.A2aIsScan` | internal/snapshot/types.go:329-343 | so does an agent alias |
| `Snapshot.SettingsAre` | internal/snapshot/types.go:481-497 | a route's retries are its own or its organization's; object stores are looked up by organization; quotas, policies and hooks are kept as they are |
| `Snapshot.CapabilitiesAre` | internal/snapshot/capabilities.go:27-46 | what a provider declares is kept, and what the catalogue adds to it |
| `Snapshot.AssignmentIndex` | internal/snapshot/types.go:345-347 | assignment lookup returns the last assignment made for type, scope and id |
| `Snapshot.AssignmentIndexAnyType` | internal/snapshot/types.go:345-347 | the same for any provider types when scopes carry no colon |
| `Snapshot.ResolveQuota` | internal/snapshot/types.go:436-479 | the first quota of the highest rank for the key, none when no quota addresses it |
| `Snapshot.RankIsPlace` | internal/snapshot/types.go:436-479 | a quota ranks by the place of its scope among organization, team, project, user and key of the caller, for the same metric and window |
| `Snapshot.LookupCredentialByName` | internal/snapshot/types.go:351-372 | some active credential of that organization, type and name, none only when there is none |
| `Snapshot.ResolveCredentialForCall` | internal/snapshot/types.go:386-423 | by name when one is asked for, otherwise key, project and organization assignments in that order |
| `Snapshot.AssignedIsScan` | internal/snapshot/types.go:374-423 | the active credential of the last assignment to the key, else to its project, else to its organization |
| `Regions.IndexBaseByOrg` | internal/regions/source.go:25-139 | grouping loops give every organization exactly its base rows in order |
| `Regions.CollectActiveOrgs` | internal/regions/source.go:189-215 | the actively bound organizations, once each, in order of their first binding |
| `Regions.ActiveOrgsMembers` | internal/regions/source.go:189-215 | an organization is listed exactly when some active binding names it, and only once |
| `Regions.SelectProviders` | internal/regions/source.go:253-266 | whatever order the map is iterated in, the referenced providers in their pool version, and no others |
| `Regions.BuildRegionSource` | internal/regions/source.go:189-274 | the merged effective slices of the bound organizations with the providers they refer to |
| `Regions.AssignmentFollows` | internal/regions/source.go:106-118 | an assignment belongs to the organization of the last credential with its id |
| `RegionPreservation.RoutePreservedFor` | internal/regions/source.go:253-266 | an inheriting organization's route resolves as in the global snapshot exactly when no overlay changes its provider |
| `RegionPreservation.RoutesPreserved` | internal/regions/source.go:189-274 | the same for all models at once |
| `RegionOverlays.BuildRegionalSnapshot` | internal/adapters/postgres/federation_store.go:151-170 | for all inputs: inheriting organizations resolve as from the global snapshot exactly when overlays keep their providers, bound ones with an overlay as its payload says; unbound ones are neither admitted nor routed |
| `RegionPreservation.OverlayProviderReachesOtherOrganizations` | internal/regions/source.go:257-257 | one organization's overlay redirects another organization's route |
| `RegionPreservation.AttemptsPreserved` | internal/dataplane/audio.go:64-94 | the attempt list of a route, for chat or speech, is the same from the regional snapshot when overlays keep every provider the route mentions |
| `RegionProviders.ChatAttemptsPreservedIff` | internal/dataplane/pipeline.go:154-181 | the chat attempts for a model, each side with the route and provider of its own lookup, are the same if and only if overlays keep the provider the route leads to and, if there is one, those of its fallbacks |
| `RegionProviders.ProviderOriginIff` | internal/regions/source.go:253-266 | every provider a region needs is the last one of its id in the pool; it comes from the base or a bound organization exactly when the last overlay that defines the id, if any, belongs to a bound organization |
| `RegionProviders.UnboundOverlayProviderIsPresent` | internal/regions/source.go:257-257 | the provider of an organization that is not bound is what the region has under the id |
| `RegionProviders.NoStrayProviders` | internal/regions/source.go:242-266 | every provider of the region is mentioned by one of its routes or defined by a bound organization's overlay |
| `RegionPreservation.ApiKeysPreserved` | internal/snapshot/types.go:233-239 | key lookup by hash agrees on everything of the organization |
| `RegionPreservation.SigningKeysPreserved` | internal/snapshot/types.go:241-250 | signing key lookup agrees on everything of the organization |
| `RegionPreservation.McpPreserved` | internal/snapshot/types.go:313-327 | MCP backends resolve to the same backend under the organization's alias |
| `RegionPreservation.A2aPreserved` | internal/snapshot/types.go:329-343 | agents resolve to the same agent under the organization's alias |
| `RegionPreservation.CredentialsPreserved` | internal/snapshot/types.go:386-423 | a call may get exactly the same credential answers, while scopes belong to one organization and either scopes or provider types carry no colon |
| `RegionPreservation.OwnQuotasPreservedIff` | internal/snapshot/types.go:436-479 | region and hub each resolve to the organization's own quota if and only if no quota of another organization addresses the key and ranks above it, or as high and before it |
| `RegionPreservation.SharedUsersQuotaDecides` | internal/snapshot/types.go:436-479 | the quota of a user who belongs to two organizations decides in the hub, and not in the region |
| `RegionPreservation.QuotasPreserved` | internal/snapshot/types.go:436-479 | quota resolution is the same while no other organization's quota wins on either side |
| `RegionPreservation.RetriesPreserved` | internal/snapshot/types.go:481-490 | routes get the same retry configuration |
| `RegionPreservation.PoliciesPreserved` | internal/policy/cel.go:127-134 | the organization's policies, in their order |
| `RegionPreservation.HooksPreserved` | internal/dataplane/wasm_bindings.go:28-45 | the organization's sandboxed hooks, in their order |
| `RegionPreservation.ObjectStorePreserved` | internal/snapshot/types.go:491-497 | the organization's object store settings |
| `RegionPreservation.RegionIsIsolated` | internal/regions/source.go:189-251 | of an organization that is not actively bound no key, signing key, route, credential, quota, policy, hook, backend, agent, retry default or object store is in the regional snapshot, nor is it admitted; providers are another matter (`RegionProviders.ProviderOriginIff`) |
| `RegionPreservation.UnboundHasNoRoute` | internal/snapshot/types.go:297-311 | no model is routed for an organization that is not bound |
| `RegionOverlays.OverlayReplacesRoutes` | internal/regions/source.go:141-187 | a bound organization with an overlay has a model routed by the last route of the overlay's payload for it, stamped with its name, to the last provider of that id in base and overlays |
| `RegionOverlays.OverlayReplacesQuotas` | internal/regions/source.go:141-187 | its quotas in the region are the payload's, stamped, in order |
| `RegionOverlays.OverlayReplacesPolicies` | internal/regions/source.go:141-187 | so are its policies |
| `RegionOverlays.OverlayReplacesHooks` | internal/regions/source.go:141-187 | so are its sandboxed hooks |
| `RegionOverlays.OverlayReplacesMcp` | internal/regions/source.go:141-187 | an MCP alias leads to the payload's last enabled backend under it, in the last version of its id |
| `RegionOverlays.OverlayReplacesA2a` | internal/regions/source.go:141-187 | so does an agent alias |
| `RegionOverlays.OverlayReplacesCredentials` | internal/regions/source.go:141-187 | a credential of the payload is found by its id, stamped, and no other one of the organization is |
| `RegionOverlays.OverlayReplacesAssignments` | internal/regions/source.go:141-187 | a scope that is the organization's own has the payload's last complete assignment |
| `RegionOverlays.OverlayReplacesSettings` | internal/regions/source.go:141-187 | default retries and object store are the payload's, present or not |
| `RegionOverlays.OverlayKeepsApiKeys` | internal/regions/source.go:141-187 | API keys stay those of the base |
| `RegionOverlays.OverlayKeepsSigningKeys` | internal/regions/source.go:141-187 | so do signing keys |
| `RegionOverlays.OverlayProvider` | internal/regions/source.go:242-266 | the payload's providers, and those its routes and their fallbacks mention, are in the region |
| `Attempts.BuildAttempts` | internal/dataplane/pipeline.go:154-181 | the loops collect the primary and the known fallbacks, order them, and resolve them |
| `Attempts.AttemptsAreUsable` | internal/dataplane/audio.go:64-94 | no candidate is lost, every attempt goes to a usable provider, a usable primary is always among them |
| `Attempts.CandidatesAre` | internal/dataplane/pipeline.go:154-170 | the usable primary under the route's model and weight, then each known fallback under its own weight and its own model, or the route's |
| `Attempts.FallbackIsAttempted` | internal/dataplane/pipeline.go:154-181 | a known fallback is attempted with that model |
| `Attempts.SameAttemptsIff` | internal/dataplane/pipeline.go:154-181 | for chat, two snapshots, each with its own primary provider, give a route the same attempts if and only if they agree on every provider it mentions |
| `QuotaAdmission.OvershootBound` | internal/dataplane/quota.go:15-43 | over every interleaving: counter plus checked-but-not-incremented requests stay within limit - 1 + N |
| `QuotaAdmission.SerialNeverOvershoots` | internal/dataplane/quota.go:15-43 | one request at a time never exceeds the limit |
| `QuotaAdmission.OvershootIsReached` | internal/dataplane/quota.go:15-43 | for every limit and every N some run reaches limit - 1 + N |
| `Gate.CheckAndIncrRequests` | internal/dataplane/quota.go:15-43 | denied means some first-ranking quota of the four windows is used up and nothing is charged; admitted means each of their counters, under the quota's own scope id, is one higher and no other has changed |
| `Gate.CountersApart` | internal/dataplane/quota.go:15-43 | two quotas share a counter exactly when scope type, scope id, metric and window are the same |
| `Gate.ChargedIsCharged` | internal/dataplane/quota.go:15-56 | a counter is charged exactly when it is that of the quota which ranks first for the key in minute, hour, day or total |
| `Gate.ExhaustedIsUsedUp` | internal/dataplane/quota.go:15-43 | a request is denied exactly when one of these has reached its limit |
| `GateRuns.AdmissionIsRun` | internal/dataplane/quota.go:15-43 | what an admitted request does to the counters, a run of the concurrent system does |
| `GateRuns.DenialIsRun` | internal/dataplane/quota.go:15-43 | a denied request is a run up to the exhausted window, whose only outcome is denial with all counters as they were |
| `Gate.IncrTokens` | internal/dataplane/quota.go:45-56 | each token counter of the first-ranking quotas grows by the tokens unless its increment failed; request counters stay |
| `Gate.RunHooks` | internal/dataplane/hooks.go:167-185 | the first hook that does not allow decides |
| `Gate.GateCall` | internal/dataplane/call_hooks.go:51-111 | a call is charged all or nothing without counter errors, and at most once per counter with them |
| `TagQuota.WithDefaults` | extensions/tagquota/tagquota.go:45-59 | tag key "end-user-id", limit 100, window "total" and scope "project" stand in for unset or non-positive settings, each on its own; others are kept |
| `TagQuota.TagCounterIs` | extensions/tagquota/tagquota.go:63-104 | tags are counted under project or organization, tag key and value |
| `TagQuota.TaggedIff` | extensions/tagquota/tagquota.go:63-76 | a call is counted exactly when it carries the tag and has a project or organization to be counted for |
| `TagQuota.NeverOverAdmits` | extensions/tagquota/tagquota.go:63-89 | under any interleaving, lost rollbacks included: counter >= admitted + awaiting rollback, admitted <= limit |
| `TagQuota.CounterIsExactAtRest` | extensions/tagquota/tagquota.go:63-89 | with nothing lost or in flight the counter equals the admissions |
| `TagQuota.AdmitsUpToLimit` | extensions/tagquota/tagquota.go:63-89 | without failed increments exactly the first `limit` decided requests are admitted |
| `TagQuota.BeforeCall` | extensions/tagquota/tagquota.go:63-89 | without a counter store or a tag a call passes; a lone tagged call passes exactly below the limit; a denied one leaves the counter as it was unless its rollback fails; verdict and counter are those of the system's run |
| `TagQuota.CallIsRun` | extensions/tagquota/tagquota.go:63-89 | a lone call, with any counter errors, is a run of the concurrent system that counts it as admitted, denied or failed, as the caller is told |
| `TagQuota.GateTaggedCall` | internal/dataplane/call_hooks.go:51-111 | with the tag hook in the chain quotas are still charged all or nothing, but without counter errors the tag counter goes up exactly when the hook is reached below its limit, even if a later gate or a quota denies |
| `Failover.ChatLoop` | internal/dataplane/chat_exec.go:184-251 | the nested loops make the calls, sleeps and final variables of the recursive specification |
| `Failover.AudioLoop` | internal/dataplane/audio.go:200-271 | the same; ends with exactly one of a live response or an error; every other opened response is discarded exactly once |
| `Failover.LoopsAreDisciplined` | internal/dataplane/audio.go:418-489 | calls advance in (target, try) order, bind first, skip a target on credential failure, and number at most targets times tries |
| `Failover.NoCallAfterFinalOutcome` | internal/dataplane/pipeline.go:190-196 | a call is followed by another only after a 5xx, a 429 or a failover error |
| `FailoverPaths.ComesToReachedPositions` | internal/dataplane/chat_exec.go:184-251 | the loops come to exactly those tries, in order, before which every earlier target was given up and every earlier try of the target was called with a 5xx, a 429 or a failover error |
| `FailoverPaths.CallsFollowOutcomes` | internal/dataplane/chat_exec.go:184-251 | they call the upstream at exactly those of them where no sleep is cancelled and credentials and backend are there |
| `FailoverPaths.TargetsAreTried` | internal/dataplane/audio.go:200-271 | every target up to the last one is called at its first try unless its credentials or backend are missing |
| `FailoverPaths.SleepsFollowOutcomes` | internal/dataplane/chat_exec.go:187-193 | before each reached retry there is one sleep under its number |
| `FailoverPaths.EndsAtLastReached` | internal/dataplane/chat_exec.go:184-251 | the loop ends at the last reached position |
| `FailoverPaths.LoopsEndForAReason` | internal/dataplane/audio.go:200-271 | that is at a cancelled sleep, after a call with a final outcome, or on the last target without credentials, backend or tries |
| `FailoverPaths.LastErrorIs` | internal/dataplane/audio.go:200-271 | the error reported is the reason given by the last position |
| `Failover.ChatAndAudioAgree` | internal/dataplane/audio.go:200-271 | identical call traces without unsupported features and with audio backends registered |
| `Failover.ChatDeliversNothingIff` | internal/dataplane/chat_exec.go:184-251 | chat always holds the result it reports if and only if there is one target and one try |
| `Failover.ChatCanDeliverNothing` | internal/dataplane/chat_exec.go:214-236 | a world in which that happens |
| `Failover.ChatAlwaysHasAnswerOrError` | internal/dataplane/chat_exec.go:184-251 | the answer "all upstream attempts failed" is never given |
| `Failover.MaxTriesFor` | internal/dataplane/retry.go:14-21 | at least one try, more only as configured |
| `Failover.WaitBound` | internal/dataplane/chat_exec.go:187-193 | a run waits at most targets times the waits of one target |
| `Failover.WaitBoundedBy` | internal/dataplane/chat_exec.go:187-193 | any bound on the waits of one target, times the targets, bounds a run |
| `Backoff.NormalizedIsAccepted` | internal/gatewayconfig/retry.go:36-98 | a normalized configuration satisfies all the delay computation relies on |
| `Backoff.DelayBounds` | internal/snapshot/retry.go:30-56 | delays start at the base, never decrease, never exceed max_delay |
| `Backoff.DelayIs` | internal/snapshot/retry.go:30-56 | for every configuration: the base when fixed; base times multiplier, 2 by default, to the n, without fraction and capped, when exponential; otherwise none |
| `Backoff.NormalizesIff` | internal/gatewayconfig/retry.go:36-98 | normalization succeeds exactly on configurations that are sound once trimmed, and returns them with the multiplier filled in |
| `Backoff.WaitSumBound` | internal/snapshot/retry.go:30-56 | the waits of k retries are within k times the delay of the k-th |
| `Backoff.WaitSumBelowSeries` | internal/snapshot/retry.go:30-56 | exponential waits of one target, capped or not, sum to at most the geometric series |
| `Backoff.SeriesClosedForm` | internal/snapshot/retry.go:45-52 | that series times (m - 1) is base * m^k - base |
| `Bedrock.ConverseContentToIR` | internal/adapters/llm/bedrock_ir.go:312-335 | the loop over blocks gives the reply, each tool's input decoded and encoded again, or "{}" when there is none or either fails |
| `Bedrock.StreamMapper.MapEvent` | internal/adapters/llm/bedrock_ir.go:351-422 | each event maps as specified and moves the tool index state |
| `Bedrock.ChatStream` | internal/adapters/llm/bedrock.go:98-122 | what is emitted, and that the first event is a message start unless it is the only error |
| `Bedrock.StreamCarriesEvents` | internal/adapters/llm/bedrock_ir.go:351-422 | for every event list: the stream carries, in order, the text, tool starts and input, the finish reason, with the mapping written out, and the usage that the events carry, and no other content |
| `Bedrock.StreamStartsAreCounted` | internal/adapters/llm/bedrock.go:98-122 | message starts are the provider's, and one more exactly when something else is heard first |
| `Bedrock.ErrorComesLast` | internal/adapters/llm/bedrock.go:98-122 | an error event is emitted exactly when the stream failed, and last |
| `BedrockClients.StreamDeliversContent` | internal/adapters/llm/bedrock_ir.go:351-422 | for any interleaving of blocks and any chunking an OpenAI-style client has the stream's text and, in order, each call with all its input |
| `BedrockClients.StreamingAgreesIff` | internal/adapters/llm/bedrock_ir.go:312-335 | such a client has the non-streaming reply, text for text, exactly when every tool has input in the encoding of the non-streaming mapper |
| `BedrockClients.DecodedStreamingAgreesIff` | internal/adapters/llm/bedrock_ir.go:312-335 | it has the same up to decoding exactly when every tool has input that decodes |
| `BedrockClients.StreamingDisagreesOnLayout` | internal/adapters/llm/bedrock_ir.go:318-327 | input laid out otherwise than the mapper would: the texts differ, the decoded values do not |
| `BedrockClients.StreamingDisagreesWithoutInput` | internal/adapters/llm/bedrock_ir.go:318-327 | to such a client a tool called without input is answered differently, decoded or not |
| `BedrockClients.GeminiWriterDeliversContent` | internal/dataplane/dialect/gemini.go:488-497 | the Gemini dialect writer hands out the stream's text and, when the stream ends, each call with all its input as an object |
| `BedrockClients.GeminiStreamingAgrees` | internal/dataplane/dialect/gemini.go:488-497 | through the Gemini dialect the streamed and the complete reply are the same, whatever the tools' input, when recoding keeps values |
| `Bedrock.ToolIndexesAreDense` | internal/adapters/llm/bedrock_ir.go:367-379 | tool starts are numbered 0, 1, 2, ... with the ids and names of their blocks, for every event sequence |
| `Sorting.StableSortSorts` | internal/policy/cel.go:135-140 | the sort is ordered, a permutation, and keeps the order of equal ranks |
| `Sorting.StableSortIsUnique` | internal/policy/cel.go:135-140 | every stable sort gives the same result |
| `PolicyEngine.SortedOrgPolicies` | internal/policy/cel.go:127-142 | exactly the enabled policies of the organization, in order |
| `PolicyEngine.RunsBeforeIsOrder` | internal/policy/cel.go:135-140 | priority descending, then name, is a strict weak order |
| `PolicyEngine.SortedForRunsInOrder` | internal/policy/cel.go:127-142 | every applicable policy as often as given, priorities going down and names up within a priority |
| `PolicyEngine.Draft.ApplyAction` | internal/policy/cel.go:260-317 | a denial, or an action without a type, denies in the policy's name and stops; "allow" stops; an unknown type fails; what the others do to the decision |
| `PolicyRules.EffectIs` | internal/policy/cel.go:260-317 | the effect of every action on its type as trimmed and lower-cased, its configuration and the expressions in it |
| `PolicyEngine.Apply` | internal/policy/cel.go:231-257 | the decision, or failure, that the cut of the concatenated actions amounts to |
| `PolicyRules.FirstDecidingAction` | internal/policy/cel.go:231-317 | the first action of a matching policy that neither sets a header nor selects a credential decides: it denies or allows in its policy's name, or fails with its policy and place; an allowed call carries the last value set for each header and the last credential selected before it |
| `PolicyRules.BrokenPolicyFails` | internal/policy/cel.go:231-245 | a policy whose expression fails, or that matches without actions, fails the evaluation when it is reached |
| `PolicyRules.UndecidedIsAllowed` | internal/policy/cel.go:231-257 | a call that no policy decides is allowed in nobody's name, with all headers and the last credential |
| `PolicyRules.SomethingDecides` | internal/policy/cel.go:231-257 | there is no other case |
| `PolicyEngine.CutEndsAtFirstTerminal` | internal/policy/cel.go:241-255 | the actions that count are those up to the first allow, deny or failure |
| `PolicyEngine.LastWriteWins` | internal/policy/cel.go:292-312 | each header carries its last value before the cut, and no other header is set |
| `PolicyEngine.NothingAfterDecisionMatters` | internal/policy/cel.go:231-257 | policies after a decision have no effect, not even a failing expression |
| `PolicyEngine.NothingAfterTerminalActionMatters` | internal/policy/cel.go:246-254 | nor do later actions of the deciding policy |
| `PolicyEngine.DecisionIgnoresListOrder` | internal/policy/cel.go:127-142 | the decision is the same for every arrangement of the list when (priority, name) pairs are distinct |
| `Usage.MergeUsageEvents` | internal/controlplane/usage_federation.go:127-141 | the k newest of both sides, newest first, k being 50 by default |
| `Usage.CutIsNewest` | internal/controlplane/usage_federation.go:127-141 | times go down, there are as many as the limit says, 50 by default, and nothing cut off is newer |
| `Usage.LimitPushdownIsLossless` | internal/controlplane/usage_federation.go:127-141 | cutting each side to its k newest first gives the times of the k newest of all |
| `Usage.SummarizeUsageRecords` | internal/controlplane/usage_federation.go:143-206 | each bucket once, with its sums, in report order |
| `Usage.BucketIs` | internal/controlplane/usage_federation.go:208-234 | name and label of a record's bucket for each grouping |
| `Usage.ListedInOrder` | internal/controlplane/usage_federation.go:196-204 | days go up; otherwise requests go down, and names up within a number of requests |
| `Usage.BucketMetricsAre` | internal/controlplane/usage_federation.go:171-180 | a bucket totals exactly the metrics of which one of its records has a number |
| `Usage.BucketHoldsItsRecords` | internal/controlplane/usage_federation.go:157-180 | a bucket holds the totals of exactly its records and the label and owner of the first |
| `Usage.GrandTotalsAreKept` | internal/controlplane/usage_federation.go:208-234 | for every grouping each measure sums to that of the records |
| `Usage.BucketsAreUnique` | internal/controlplane/usage_federation.go:181-195 | no bucket is listed twice |
| `UsageMerging.MergeUsageSummary` | internal/controlplane/usage_federation.go:236-282 | each bucket of either side once, summed, then sorted by whatever sort runs the comparison; no report when a comparison reads past a name |
| `UsageMerging.SummaryOfUnion` | internal/controlplane/usage_federation.go:143-180 | summarizing is a homomorphism: the summary of all records is the merge of the summaries |
| `UsageMerging.MergedReportIsReportOfAll` | internal/controlplane/usage_federation.go:236-282 | a merged report is the report of all records, labels and owners included, and there is one under every sort exactly when all bucket names are comparable |
| `UsageMerging.SortsIff` | internal/controlplane/usage_federation.go:271-280 | a list sorts without a panic under every sort exactly when no name of length 10 with "-" as its fifth byte stands beside one shorter than 5 |
| `UsageMerging.ComparableMeans` | internal/controlplane/usage_federation.go:271-280 | that condition, spelled out over the names |
| `UsageMerging.MergeCanPanic` | internal/controlplane/usage_federation.go:271-280 | model buckets "o1" and "qwen-turbo" panic under every sort |
| `UsageMerging.ComparisonIsNoOrder` | internal/controlplane/usage_federation.go:271-280 | a day-shaped name and a longer name that is not can each come before the other |
| `UsageMerging.RegularGroupingsAreComparable` | internal/controlplane/usage_federation.go:208-234 | day, modality and byok grouping, and key grouping by ids not 10 bytes long, never panic |
| `Replay.MemoryReplayStore.Use` | internal/dataplane/auth_signed.go:45-59 | accepted exactly when the key is not live; expired entries go, live ones stay |
| `Replay.UseAll` | internal/dataplane/auth_signed.go:45-59 | the store driven by any run of uses accepts as specified |
| `Replay.AcceptedIff` | internal/dataplane/auth_signed.go:45-59 | a use is accepted exactly when no accepted use of its key is younger than the time-to-live |
| `Replay.AcceptedUsesAreApart` | internal/dataplane/auth_signed.go:45-59 | accepted uses of a key are a time-to-live apart, less the lag between clock reading and lock |
| `Replay.AcceptedTwiceOnlyAtTheEnds` | internal/dataplane/auth_signed.go:136-158 | with clocks that agree, two acceptances of one request fall on the two end points of the freshness window |
| `Replay.AcceptedTwiceOnlyNearTheEnds` | internal/dataplane/auth_signed.go:136-158 | in general, within the lag of the store readings plus the delay between age check and store reading of them |
| `Replay.NoneIsAcceptedTwiceIff` | internal/dataplane/auth_signed.go:28-59 | no run accepts a request twice if and only if there is neither lag nor delay and one end of the window is excluded |
| `Tenancy.OrgRoleUpdateKeepsOneOwner` | internal/tenancy/types.go:142-163 | a permitted role change keeps exactly one owner, and only a transfer changes who it is |
| `Tenancy.TeamRoleKeepsOwner` | internal/tenancy/types.go:129-134 | a permitted team role change leaves an owner |
| `Tenancy.CreateOrganization` | internal/tenancy/service.go:15-27 | an organization starts with its creator as only owner |
| `Tenancy.AddOrgMemberByEmail` | internal/tenancy/service.go:76-86 | adds a member and never touches a row that is there |
| `Tenancy.UpdateOrgMemberRole` | internal/tenancy/service.go:88-117 | exactly when a role change succeeds, that it writes the target's role and makes the actor of a transfer an admin, and that every organization keeps exactly one owner |
| `Tenancy.InviteOrgMember` | internal/tenancy/invite.go:42-111 | exactly when an invite succeeds; people are added or invited as members only |
| `Tenancy.AcceptInvite` | internal/tenancy/invite.go:199-259 | a pending, unexpired invite adds its user unless already a member, even when closing the invite then fails; owners stay |
| `Tenancy.CreateTeam` | internal/tenancy/service.go:30-42 | a team starts with its creator as owner |
| `Tenancy.AddTeamMember` | internal/tenancy/service.go:239-262 | succeeds exactly for an organization member who is not in the team, who is added as a member |
| `Tenancy.RemoveTeamMember` | internal/tenancy/service.go:265-283 | removes anyone but the sole owner |
| `Tenancy.UpdateTeamMemberRole` | internal/tenancy/service.go:287-321 | exactly when a team role change succeeds, what it writes, and that an owner remains |
| `OwnershipRuns.MoveKeepsInv` | internal/tenancy/service.go:88-117 | with one role change under way, every step keeps one owner and what the change has read |
| `OwnershipRuns.RoleUpdateIsRun` | internal/tenancy/service.go:88-117 | the service's role change is a run of the system with one change under way |
| `OwnershipRuns.OneOwnerIffChangesDoNotOverlap` | internal/tenancy/service.go:88-117 | every reachable organization has exactly one owner if and only if at most one role change is under way at a time |
| `OwnershipRuns.TeamChangeIsRun` | internal/tenancy/service.go:265-321 | a removal or team role change is a run of the team system |
| `OwnershipRuns.OwnedIffChangesDoNotOverlap` | internal/tenancy/service.go:265-321 | every reachable team has an owner if and only if at most one removal or role change is under way at a time |

## Left out

- HTTP handlers, CORS, logging, metrics, mail, configuration loading, the CLI, the web pages and CRUD services: no property beyond a single branch.
- Storage adapters: repositories and counters are maps with the behaviour of their ports; a table replacement either takes place or fails, leaving anything.
- The adapter that replaces federation tables ignores some row deletion errors (`internal/adapters/postgres/federation_store.go:208-213`); the model takes the port's promise.
- JSON form of snapshots: an empty allowlist does not survive `omitempty`; allowlist facts are about the value in memory. Nil and empty maps are one value.
- Time stamps, encrypted payloads, key versions and the code of sandboxed hooks.
- `ToSnapshot`: both retry configuration types have the same fields and the same delay code, so they are one type here and the conversion is the identity.
- Federation with several pullers of one region at once, and slug normalization.
- Float rounding and overflow in delays, costs and metrics; integer counters do not wrap around.
- Order of merged usage summaries: their comparison is no order, so only the content is stated. The library sort is a parameter: it rearranges the list and compares elements of it, of two elements the second with the first. Bucket names are byte strings. Sharing of a metrics map between a report and the merged one is not modelled.
- Usage filters and the fetching of remote reports.
- Counter windows are fixed buckets; expiry is not modelled.
- Routing strategies: any function that permutes the candidates.
- Model name hints of audio requests and capability checks: one predicate on providers.
- The Bedrock finish reason: only the non-streaming path turns "stop" into "tool_calls". Decoding and encoding of JSON are parameters; that encoding a decoded document again keeps its value, and that blank text is not JSON, are conditions of the theorems about decoded arguments.
- Delivery of Bedrock events to a client that stops reading, and errors in the middle of a stream beyond the final error event.
- The signature library: which ends of the freshness window it includes is a parameter, and so is by how much its clock reading comes before or after that of the store; signature verification itself, digests and key parsing are not part of this model. Times are real numbers.
- Invite tokens, their hashing and rotation; revoking and resending invites change no membership.
- Store failures inside membership services: a failed call ends the service and changes nothing.
- Gate.GateCall: verdicts of the policy, hook and WASM gates are parameters; of hooks with counters of their own only the tag quota hook is modelled (`TagQuota.GateTaggedCall`). The context the gates fill in is not part of it.
- Federation.RegionalStore.PullOnce: the hub stands still during the method; concurrent hub changes are covered by the transition system.
