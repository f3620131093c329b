# Krypton key management: a verified model

Krypton manages a forest of tenant keys. A root node holds the truth about keys and key versions, agents hold mirrors of the keys they manage, and sealed key material lives in vaults. This project models that system in Dafny and proves what it keeps in every run: through store errors, lost replies, rolled back transactions, redelivered tasks, re-announced keys and rotated provider keys.

## How the model is built

- `Model`, `Store` and `Transactions` are the tables of a node, the SQL statements the stores issue, and one open transaction.
- `Hierarchy` and `Topology` are the key hierarchy, the configuration validators and the way a node finds the parent of a kind. `Sealing` says which nodes can seal at all. `Samples` holds three families of small configurations.
- `Lifecycle` holds the state and usage tables of section 7 of NIST SP 800-57 Part 1 Rev. 5.
- `Worlds` is the whole system at one moment: root tables, agents' tables, every node's vault, and the announce jobs handed to the scheduler. `Envelope` says what secret a node resolves in a world, and what a sealing attempt stores. AES-GCM is an ideal authenticated cipher (sections 7.1 and 7.2 of NIST SP 800-38D): a box opens under the key and associated data it was sealed with, and only there.
- `Agent`, `Protocol` and `Steps` are the protocol steps as functions of a world and of a record of what goes wrong in the step. A transaction that does not commit leaves its tables as they were. Vault writes and calls to agents stay.
- `Clusters`, `Handler` and `Services` are the handlers, services and managers as classes and methods that change state step by step. Each is proved to do exactly what the protocol step says.
- `Invariant` and `Preservation` prove an invariant of every reachable world, `Delivery` a second one about what has reached the agents. `Stability`, `Material`, `Theorems` and `Histories` draw the conclusions about every run.
- `Progress`, `Availability`, `Cascade` and `Withdrawal` say what deliveries without faults achieve, up to whole trees. `Runs`, `Chains` and `Witnesses` build runs, of any deployment and of the samples, so that none of this is about empty stores only.
- `Forest`, `KeyAction`, `Paging` and `Like` are the key-forest queries, the admin action that cuts a filtered tree into jobs, keyset pagination and the escaped name filter.
- `Segments`, `Identities` and `Selectors` are the identity URIs and the selector language.
- `SecureMem` and `Processor` are the locked-memory buffers under failing system calls, and who owns them while a secret is made or resolved. A buffer says whether the system may refuse to make it writable again (`mayStick`); generators, vaults and sealers appear as the buffers they hand over.

A run (`Steps.Run`) is any sequence of steps: creating tenants, announcing keys, confirming and delivering announce jobs, admin actions, deliveries of action tasks, and binding, rotating and removing providers. Tasks may be delivered at any moment and any number of times, with any faults.

## Assumptions

- Every handler call, admin call and service call is one atomic step. Transactions are serializable, and one handler works on a key at a time.
- Manager, configuration and connection registry are present. The registry holds a connection for exactly the configured agents.
- Agents' rows are written only through the root.
- Providers are bound to keys of the root kind only, as the root-key service is meant to be used (`Steps.OfRootKind`).
- Handing a job to the scheduler happens outside the transaction, so a job can outlive a rolled back announce.
- A new key gets an identifier that was never used.
- No agent carries the root's own name, and the root is addressed by the name "root" where bindings name a parent provider (`Invariant.Deployed`).
- A node has one vault. Cursors encode and decode without loss. Case folding leaves the LIKE metacharacters alone.
- Integers are unbounded: the 32-bit fields of the agent calls are not cut off.

## What is not as one might expect

- **Re-announcing resets a key.** An announce that meets its own row writes (pre-activation, pending) without asking the lifecycle table. The lifecycle law is therefore stated with its exact condition: along any stretch of any run the states follow the table if and only if no announce commits onto the row after it left pre-activation (`Histories.HistoryLegalIff`). Every deployment has a run that resets an active, settled key in this way (`Chains.ResetReached`).
- **A late confirmation strands a key.** Confirming an announce job moves any pending row to in-progress. A row is stranded past pre-activation by a confirmation while an action is pending on it, and by nothing else; only a re-announce frees it (`Histories.StrandedExactly`, `Histories.NeverStrandedIff`). `Witnesses.StrandedReached` is a run that gets there.
- **An agent right below the root key can never seal.** The sealer service of the root has no processor for the root kind, so a remote parent that is the root key is never found. Validation accepts such a topology, and bindings without a vault. Every chain of an accepted configuration can seal if and only if the root key is reached locally and every binding has a vault (`Sealing.ChainsCanSealIff`); the others never seal in any world (`Sealing.RemoteFirstKindNeverSeals`, `Samples.StuckIsDeployed`).
- **A stored reserved label keeps a key from its agent for good.** Announcing does not check labels, the agent does. A key announced with a reserved label fails; announced again without it, the row is adopted with its old labels and settles, because the job carries the new ones. When it is activated, the task pushes the stored row, the agent refuses it, and the failure is committed together with a version that is nowhere but at the root (`Witnesses.RefusedVersionReached`). Exactly that is the condition: a version the root commits has its row and secret at the managing node if and only if that is the root or the stored row carries no reserved label (`Theorems.CommittedHasMaterial`, `Theorems.TaskShipsIff`).
- **A key may be announced below a parent its node cannot find.** Announcing asks for a parent one position above, not for one that is managed where the child's node looks. Two agents for the same kinds are enough for that (`Witnesses.UnhousedKeyReached`). Such a key is never settled past pre-activation, in any run (`Availability.OnlyHousedKeysSettle`). Exactly: below settled ancestors the first delivery without faults settles a key if and only if the key is housed, that is managed below a parent its node finds, and equipped with a vault, acceptable labels and, below the root key, a usable provider (`Availability.FirstDeliverySettlesIff`).
- **Single and cascading actions judge keys alike only with aligned filters.** Without filters a cascade takes every key and a single action none; a filter without a state differs as well. They agree on every key if and only if some filter constrains and whatever a filter without a state admits is admitted by one that names the state (`KeyAction.FetchesAgreeIff`). The filters of the three admin actions always meet this (`Steps.FiltersAligned`).
- **A buffer in both vaults of a handler is lost.** A run that succeeds destroys the temporary vault last, so a buffer the handler put into both comes back destroyed (`SecureMem.SharedEntryIsLost`). An entry that was destroyed before is returned without being read-only. For every other entry the promise holds (`SecureMem.Finish`).

## Model

| member | source | states |
|---|---|---|
| Store.NewestExists | pkg/store/sql/keyversion.go:101-179 | a listing by version and revision, newest first, has a first row whenever a row matches |
| Transactions.Tx.UpdateKeyStates | pkg/store/sql/key.go:429-462 | compare-and-set changes exactly the one matching row and reports whether there was one |
| Transactions.Tx.NewestVersion | pkg/store/sql/keyversion.go:101-179 | with limit 1 the scan returns the newest row among those the filters leave, or none |
| Transactions.Tx.UpdateVersionStates | pkg/store/sql/keyversion.go:181-224 | compare-and-set changes exactly the two state columns of the one matching row and reports whether there was one |
| Transactions.Tx.CreateVersion | pkg/store/sql/keyversion.go:31-61 | inserts unless the primary key is taken |
| Transactions.Tx.UpsertKey | internal/keyoperator/key.go:58-106 | inserts, or adopts the row with the same name and writes its states only if the identity matches; otherwise nothing changes |
| Clusters.UpsertKeepsNames | pkg/store/sql/key.go:26-65 | no upsert makes two rows share tenant and name |
| Hierarchy.Validate | internal/spec/keyhierarchy.go:42-87 | accepts exactly the hierarchies with one root first, a dek last, keks and teks between and distinct kinds, and otherwise reports the first fault |
| Topology.ValidateSegment | internal/spec/hierarchy_validation.go:39-73 | accepts exactly when the range is in order and the bindings are those of the range |
| Topology.ValidateRootSegment | internal/spec/hierarchy_validation.go:76-106 | accepts exactly the root segments the rules allow |
| Topology.ValidateAgentSegment | internal/spec/hierarchy_validation.go:109-157 | accepts exactly the agent segments the rules allow |
| Topology.ValidateProviders | internal/spec/hierarchy_validation.go:196-224 | accepts exactly when every named parent provider resolves to a segment that contains the preceding kind |
| Topology.ValidateTopology | internal/spec/hierarchy_validation.go:161-193 | accepts exactly the topologies with distinct names, valid agent segments and resolvable providers |
| Topology.ParentInSegment | internal/keyprocessor/manager.go:249-289 | in an accepted configuration the parent chosen for any bound kind lies in a segment that contains the preceding kind |
| Topology.WalkReachesRoot | internal/keyprocessor/manager.go:249-289 | from any bound kind the walk to the parent's manager reaches the root key in exactly as many hops as the kind's position |
| Topology.ChainsBoundIff | internal/keyprocessor/manager.go:67-105 | every chain of an accepted configuration is bound to vaults and ends at the root provider if and only if the root key is reached locally and every binding has a vault |
| Samples.WorkingIsDeployed | internal/spec/hierarchy_validation.go:161-193 | a whole family of configurations is accepted and reaches its root key locally |
| Samples.TwinsAreDeployed | internal/spec/hierarchy_validation.go:161-193 | validation accepts two agents with the same segment |
| Samples.StuckIsDeployed | internal/spec/hierarchy_validation.go:161-193 | validation accepts agents right below the root key, although there no attempt creates a secret, in any world |
| Lifecycle.DecryptKeptUntilDestroyed | internal/keylifecycle/keylifecycle.go:26-62 | along the transition table a key that decrypts keeps doing so short of destroyed |
| Lifecycle.EncryptNeverRegained | internal/keylifecycle/keylifecycle.go:26-62 | along the table encryption is never regained after deactivated, compromised or destroyed |
| Lifecycle.EncryptLostExactly | internal/keylifecycle/keylifecycle.go:71-96 | those three states are exactly the ones from which no legal history encrypts again |
| Envelope.EncryptImpliesDecrypt | internal/keyprocessor/rootmanager.go:185-258 | where the parent key can be had for sealing it can be had for unsealing, and is the same key |
| Envelope.RoundTrip | internal/keyprocessor/processor.go:86-118 | a stored secret resolves to exactly the drawn one, through transport and parent seal, in every world that differs only about its own key |
| Envelope.SecretStable | internal/keyprocessor/manager.go:164-197 | a secret a manager can use stays the same in every later world, or the manager reports the state of some key of the chain |
| Envelope.ResolveStable | internal/keyprocessor/processor.go:182-227 | a version that resolved keeps resolving to the same bytes, or reports the state of some key of its chain |
| Envelope.ResolveReady | internal/keyprocessor/processor.go:182-227 | once resolved, a version resolves in a later world if and only if every pinned version above is usable, its key active, and the root key settled in a state that decrypts |
| Sealing.CanSealIff | internal/keyprocessor/processor.go:86-118 | a kind can be sealed in some world at a node if and only if its chain is bound to vaults and ends at the root provider |
| Sealing.ChainsCanSealIff | internal/keyprocessor/manager.go:249-289 | all kinds of an accepted configuration can, if and only if the root key is reached locally and every binding has a vault |
| Sealing.RemoteFirstKindNeverSeals | internal/keyprocessor/manager.go:67-105 | a node that reaches the root key remotely creates no secret of the first kind, whatever the world, version and draw |
| Sealing.AgentsSealBelowFirst | internal/keyprocessor/processor.go:263-303 | an agent creates secrets only two positions or more below the root key |
| Chains.SealsInARunIff | internal/keyprocessor/processor.go:86-118 | in any deployment a kind is sealed at a node in some run if and only if its chain is bound to vaults and ends at the root provider |
| Chains.BoundKindGoesActive | internal/orchestrator/task.go:55-112 | then some run leaves a key of the kind active and settled at the node, with a secret that resolves |
| Clusters.Cluster.ProviderKey | internal/keyprocessor/rootmanager.go:185-258 | the provider's key after the checks of a seal or unseal, in their order |
| Clusters.Cluster.SecretFor | internal/keyprocessor/manager.go:164-197 | the lookups and checks of a manager end in the secret the envelope defines |
| Clusters.Cluster.KeyOfParent | internal/keyprocessor/processor.go:263-303 | the parent's key at the pinned version, from the node the parent is found at |
| Clusters.Cluster.Unseal | internal/keyprocessor/processor.go:182-227 | the recursive unsealing of a version's secret, at any depth |
| Clusters.Cluster.SealNewSecret | internal/keyprocessor/processor.go:86-118 | stores the secret sealed for transport and under the parent, in the version's own slot only |
| Clusters.Cluster.ServeUpsertKey | pkg/api/v1/proto/agents/keys/service.go:32-65 | refuses incomplete rows and reserved labels; else one transaction on the agent: mirrored row and reply as the protocol says, or no change |
| Clusters.Cluster.ServeUpsertVersion | pkg/api/v1/proto/agents/keyversions/service.go:34-92 | updates the row, or creates row and secret; a failed commit leaves only the vault write |
| Handler.Response.Apply | internal/orchestrator/error.go:64-83 | only a retry rolls the transaction back; fail and complete are recorded and committed |
| Handler.KeyOperator.MarkKeyFailed | internal/orchestrator/keyoperator.go:73-95 | the row is marked failed inside the transaction, or the task is retried |
| Handler.KeyOperator.ResolveKeyAndVersions | internal/orchestrator/keyoperator.go:57-69 | key, version and newness as version resolution defines them, or the error path it demands |
| Handler.KeyOperator.ResolveKeyVersions | internal/orchestrator/keyoperator.go:288-391 | moves the latest version to the key's state, or creates version 1 pinned to the parent's latest usable active version |
| Handler.KeyOperator.GenerateAndSealSecret | internal/orchestrator/keyoperator.go:99-142 | seals for new versions the root manages below the root key, and for nothing else |
| Handler.KeyOperator.UpsertRemote | internal/orchestrator/keyoperator.go:146-179 | pushes key and version in this order to the managing agent, stopping at the first call that is not done |
| Handler.KeyOperator.UpsertRemoteKey | internal/orchestrator/keyoperator.go:202-228 | an unanswered or retryable call is retried, a refusal marks the key failed |
| Handler.KeyOperator.UpsertRemoteKeyVersion | internal/orchestrator/keyoperator.go:230-263 | the same for the version call |
| Handler.KeyOperator.MarkKeyCompleted | internal/orchestrator/keyoperator.go:182-200 | only a pending row in the key's state is completed |
| Handler.Handle | internal/orchestrator/task.go:55-112 | a delivery leaves cluster and response exactly as the protocol step says, whatever fails in it |
| Services.AnnounceKey | pkg/api/v1/proto/admin/keys/key_service.go:44-71 | upserts the announced row and hands over the job; the job stays even if the transaction does not |
| Services.ConfirmJob | internal/orchestrator/announce_taskresolver.go:36-73 | moves a pending row to in-progress; cancels only if the key is missing |
| Services.PushAnnouncedTenant | internal/orchestrator/announce_task.go:113-156 | the tenant reaches the agent, or the shared state turns failed, or the task is retried |
| Services.PushAnnouncedKey | internal/orchestrator/announce_task.go:158-188 | the key reaches the agent and the shared state says how the row is to be settled |
| Services.HandleAnnounceTask | internal/orchestrator/announce_task.go:49-84 | a delivery leaves cluster and response exactly as the protocol step says |
| Services.ValidateKeyParents | pkg/validator/key_validator.go:169-189 | succeeds exactly when the key exists and every strict ancestor is active and settled |
| Services.PerformAction | pkg/api/v1/proto/admin/keys/key_service.go:73-244 | either the root is untouched, or the action was allowed and exactly its work moved, in one transaction |
| Services.BindProvider | internal/keyprocessor/rootmanager.go:101-121 | the spec goes to the version-0 slot, the first provider key version to the tables |
| Services.ReplaceAuth | internal/keyprocessor/rootmanager.go:124-145 | replaces the auth of a bound provider of the same type and nothing else |
| Services.AddProviderKey | internal/keyprocessor/rootmanager.go:149-171 | records the version after the latest one |
| Services.UnbindProvider | internal/keyprocessor/rootmanager.go:175-182 | removes the spec slot and nothing else |
| Forest.AncestorsAreAChain | pkg/store/sql/key.go:90-132 | the ancestors of a key are a root-first chain of length position plus one that ends at the key, each the parent of the next |
| Forest.AncestorsDistinct | pkg/store/sql/key.go:90-132 | no key occurs twice among the ancestors |
| Forest.GetParentKeys | pkg/store/sql/key.go:90-132 | the walk upwards returns exactly that chain, or not found |
| Forest.LayerIsReachability | pkg/store/sql/key.go:141-275 | layer d of the pruned recursion holds exactly the keys at the end of a path of d parent steps all of whose keys pass the filters |
| Forest.LayersDisjoint | pkg/store/sql/key.go:141-275 | no key is in two layers |
| Forest.LayerHasOneKind | pkg/model/key.go:144-169 | all keys of a layer have the kind of its first key |
| Forest.GetDescendantKeys | pkg/store/sql/key.go:141-275 | the loop ends and lists every non-empty layer, each key once, by creation |
| KeyAction.SingleVersusCascade | internal/orchestrator/keyaction.go:117-143 | with aligned filters both ways of fetching select the addressed key alike; otherwise some key is selected by the cascade alone |
| KeyAction.FetchesAgreeIff | internal/orchestrator/keyaction.go:117-143 | both judge every key alike if and only if the filters are aligned |
| Steps.FiltersAligned | pkg/api/v1/proto/admin/keys/key_service.go:73-244 | the filters of the three admin actions are aligned |
| KeyAction.FetchKeyTree | internal/orchestrator/keyaction.go:117-143 | returns the selected tree, or nothing exactly when nothing is selected |
| KeyAction.FetchedIsSnapshot | internal/orchestrator/keyaction.go:117-143 | a fetched tree lists stored rows, none twice |
| KeyAction.TasksAreTheWork | internal/orchestrator/keyaction.go:60-115 | the identifiers in the jobs are exactly the keys of the tree not already settled in the target state |
| KeyAction.TasksUnique | internal/orchestrator/keyaction.go:60-115 | each occurs once in all jobs |
| KeyAction.ParentsOrdered | internal/orchestrator/keyaction.go:60-115 | top-down a parent's job comes before its child's, bottom-up after it |
| KeyAction.ApplyKeyAction | internal/orchestrator/keyaction.go:60-115 | moves exactly the work to (target, pending), leaves every other row, and cuts one job per layer with work, in order |
| KeyAction.ResolveTasks | internal/orchestrator/taskresolver.go:29-53 | one task per identifier, in order |
| Preservation.TaskKeepsInv | internal/orchestrator/task.go:55-112 | every delivery, with any faults, keeps the invariant |
| Preservation.AnnounceKeepsInv | pkg/validator/key_validator.go:193-228 | every announce keeps it, the well-formed forest included |
| Preservation.AnnounceTaskKeepsInv | internal/orchestrator/announce_task.go:49-84 | every delivery of an announce task keeps it |
| Preservation.CreateProviderKeepsInv | internal/keyprocessor/rootmanager.go:101-121 | binding a provider keeps it |
| Preservation.RotateKeyKeepsInv | internal/keyprocessor/rootmanager.go:149-171 | recording the next provider key keeps it, version contiguity included |
| Preservation.StepKeepsInv | internal/orchestrator/task.go:55-112 | every step keeps the invariant |
| Preservation.RunKeepsInv | internal/orchestrator/keyoperator.go:57-263 | every world of every run satisfies the invariant |
| Delivery.ReservedIsRefused | pkg/api/v1/proto/agents/keys/service.go:32-65 | the push of a key with a reserved label is not done and changes nothing |
| Delivery.NotGivenUp | internal/orchestrator/keyoperator.go:202-263 | the push of any other key past pre-activation is never refused, in a world that satisfies both invariants |
| Delivery.NewVersionOutcome | internal/orchestrator/keyoperator.go:146-228 | a task that commits a new version of an agent's key leaves it completed, or failed if it carries a reserved label |
| Delivery.StepKeepsDelivered | internal/orchestrator/task.go:55-112 | every step keeps the second invariant |
| Delivery.RunDelivered | internal/orchestrator/keyoperator.go:146-263 | in every run: keys past pre-activation are at their agents, and so are the versions of those without reserved labels, pinned to the first version of their parent |
| Stability.StepGrows | internal/keyprocessor/rootmanager.go:101-182 | rows, pins, committed material and bound providers survive every step that does not remove or rebind a provider |
| Stability.RunGrows | internal/keyprocessor/rootmanager.go:101-182 | so along runs nothing that sealing depends on is lost |
| Material.RootOutcomes | internal/orchestrator/task.go:55-112 | the tables a task may leave at the root |
| Material.RootAfterTask | internal/orchestrator/task.go:55-112 | whatever a task commits at the root concerns its own key only |
| Material.RootCommitResolves | internal/orchestrator/keyoperator.go:99-142 | a version the root commits resolves to the secret of the committing attempt |
| Material.AgentCommitResolves | pkg/api/v1/proto/agents/keyversions/service.go:58-92 | a version an agent commits resolves to the secret of the committing attempt |
| Material.CommitFixesSecret | internal/orchestrator/keyoperator.go:288-391 | when a task commits a version, its node resolves exactly the secret this attempt drew |
| Material.SecretForLife | internal/keyprocessor/processor.go:86-303 | from then on the node resolves that secret exactly while the chain is ready, through rollbacks, redeliveries, actions, re-announces and provider-key rotations |
| Material.ResolveClimbs | internal/keyprocessor/manager.go:164-247 | resolving climbs the hierarchy at every hop, so the recursion ends |
| Theorems.RootAndAgentAgree | internal/orchestrator/keyoperator.go:146-263 | in every run: a key the root shows as settled in a state is in that state at its agent, with the root's latest version, usable, in that state, and its secret in the agent's vault |
| Theorems.VersionsContiguous | internal/orchestrator/keyoperator.go:352-391 | the versions of a key are exactly 1 to n at revision 1, and the latest is n |
| Theorems.RootStoreInEveryRun | internal/orchestrator/keyoperator.go:313-391 | in every reachable root store versions are contiguous, a settled key past pre-activation has a usable latest version in its state, and every pin names an existing version |
| Theorems.SpecsCollideWithNothing | internal/keyprocessor/rootmanager.go:260-280 | the slot of a provider spec is the slot of no version |
| Theorems.NothingCommittedIsReplaced | internal/keyoperator/key.go:58-106 | no step of any run removes a row, changes a key's identity or a version's pin, or replaces committed material |
| Theorems.CommittedHasMaterial | internal/orchestrator/keyoperator.go:99-179 | in every run a version the root has committed for a key other than the root key has row and sealed secret at the managing node if and only if that is the root or the stored key carries no reserved label; otherwise neither is there |
| Theorems.OwnedHasMaterial | internal/orchestrator/keyoperator.go:99-142 | every version at the node that manages its key has its sealed secret there |
| Theorems.TaskShipsIff | internal/orchestrator/keyoperator.go:202-228 | a task of a run that commits a new version of an agent's key leaves its secret at the agent and completes the key if and only if the stored row carries no reserved label, and fails the key otherwise |
| Theorems.PinsAgreeInEveryRun | pkg/api/v1/proto/agents/keyversions/service.go:58-92 | in every run root and agent pin a version to the same version of the same parent |
| Theorems.CommittedByATask | internal/orchestrator/task.go:55-112 | every such version was committed by one task of the run |
| Theorems.EverySecretIsTheCommitted | internal/keyprocessor/processor.go:182-227 | in every reachable world every managed version resolves, exactly while its chain is ready, to the secret of the attempt that committed it |
| Theorems.EveryRootVersionHasItsSecret | internal/keyprocessor/processor.go:182-227 | the same for every version the root has committed, at the managing node, unless that is an agent and the stored key carries a reserved label |
| Theorems.ForestInEveryRun | pkg/validator/key_validator.go:193-228 | the keys of every reachable store form a forest that follows the hierarchy |
| Theorems.ResolvingEnds | internal/keyprocessor/manager.go:164-247 | whatever a node is asked for in a reachable world, resolving it ends within the hierarchy |
| Histories.DispositionMatchesStore | internal/orchestrator/task.go:55-112 | continue leaves the root store, fail means a missing tenant or key or a row committed as failed, complete means a row committed as completed or nothing to do |
| Histories.NothingDueNothingDone | internal/orchestrator/validator.go:30-45 | only a due row gives a delivery anything to do, in root, agent or vault |
| Histories.RedeliveryIsInert | internal/orchestrator/task.go:55-112 | after complete another delivery changes nothing anywhere, whatever goes wrong in it |
| Histories.RedeliveriesInRuns | internal/orchestrator/task.go:55-112 | in every run: after complete every later delivery changes nothing, whatever other steps come between, unless an action moved the row again |
| Histories.ReannounceLegalIff | internal/keyoperator/key.go:89-96 | a re-announce resets the row, legally exactly if it never left pre-activation; any other announce leaves it |
| Histories.ActionIsLegal | pkg/api/v1/proto/admin/keys/key_service.go:73-244 | the filters admit only rows from which the target is reachable in the table, and none in progress |
| Histories.RowStep | internal/orchestrator/keyoperator.go:57-95 | how each step may move the states of a row: a complete list |
| Histories.StepIsLegal | internal/keylifecycle/keylifecycle.go:26-62 | a step changes a state outside the table exactly if it re-announces a row past pre-activation |
| Histories.HistoryLegalIff | internal/keylifecycle/keylifecycle.go:26-62 | along any stretch of any run the states follow the table if and only if no such re-announce happens |
| Histories.UsageInRuns | internal/keylifecycle/keylifecycle.go:71-96 | then encryption is never regained after deactivation and decryption never lost short of destroyed |
| Histories.StrandedStays | internal/orchestrator/announce_taskresolver.go:36-73 | a stranded row stays as it is along any stretch without a re-announce |
| Histories.StrandedExactly | internal/orchestrator/announce_taskresolver.go:36-73 | in every run a row is stranded by confirming its job while an action is pending and by nothing else, and freed by a re-announce and by nothing else |
| Histories.NeverStrandedIff | internal/orchestrator/announce_taskresolver.go:36-73 | along any stretch no row becomes stranded if and only if no such confirmation happens |
| Progress.SmoothDeliverySettlesIff | internal/orchestrator/task.go:55-112 | a delivery in which nothing goes wrong settles the key if and only if a version exists or can be derived and the managing node holds or can seal its secret and, if an agent, knows the tenant and accepts the row |
| Progress.SmoothAnnounceSettles | internal/orchestrator/announce_task.go:49-84 | a delivery of an announce task in which nothing goes wrong completes the row if the root manages the key or the job carries no reserved label, and fails it otherwise |
| Availability.LineMakesChain | internal/keyprocessor/manager.go:164-197 | if a key and its ancestors are housed and the ancestors active and settled, the chain of its version is ready |
| Availability.Available | internal/keyprocessor/processor.go:182-303 | so in every reachable world such a version resolves at its node |
| Availability.LineSettles | internal/orchestrator/keyoperator.go:57-263 | and such a key can be settled, if it is equipped: vault, acceptable labels and, below the root key, a usable provider |
| Availability.FirstDeliverySettlesIff | internal/orchestrator/task.go:55-112 | below settled ancestors the first delivery without faults settles a key if and only if it is housed and equipped |
| Availability.OnlyHousedKeysSettle | internal/keyprocessor/manager.go:164-197 | in every run a key that is settled past pre-activation is managed below a parent its node finds |
| Cascade.OneSettles | internal/orchestrator/task.go:55-112 | a delivery without faults of a due, housed and equipped key settles it and touches no other key row of the root |
| Cascade.TasksAreTheWorkInOrder | internal/orchestrator/keyaction.go:60-115 | the tasks of the jobs, job by job, are the work of the tree, layer by layer |
| Cascade.CascadeSettles | internal/orchestrator/keyaction.go:60-115 | in every reachable world, delivering the tasks of an activation's jobs in order and without faults settles every key of its tree, if these are housed and equipped |
| Withdrawal.RunGood | pkg/api/v1/proto/admin/keys/key_service.go:73-244 | in every run a suspended or deactivated key has a version, and no label its agent refuses |
| Withdrawal.WithdrawnSettles | internal/orchestrator/task.go:55-112 | a delivery without faults of a key that is to be suspended or deactivated settles it, whatever the state of the keys above |
| Withdrawal.AnyOrderSettles | internal/orchestrator/task.go:55-112 | so do such deliveries of any due keys, in any order |
| Withdrawal.WithdrawalSettles | internal/orchestrator/keyaction.go:60-115 | in every reachable world, delivering the tasks of a suspension's or deactivation's jobs in order and without faults settles every key of its tree in the target state |
| Witnesses.AgentKeyGoesActive | internal/orchestrator/task.go:55-112 | the working sample has a run that leaves an agent's key active and settled at root and agent, with a secret that resolves |
| Witnesses.StrandedReached | internal/orchestrator/announce_taskresolver.go:36-73 | it has a run that leaves a row stranded |
| Chains.ResetReached | internal/keyoperator/key.go:58-106 | every deployment has a run in which an announce takes an active, settled key back to pre-activation |
| Chains.UnhousedReached | pkg/validator/key_validator.go:193-228 | where two nodes serve a kind, some run announces a key of the next kind below a parent its node does not find, and settles it |
| Witnesses.UnhousedKeyReached | pkg/validator/key_validator.go:193-228 | the sample with two agents for the same kinds has such a run |
| Witnesses.RefusedVersionReached | pkg/api/v1/proto/admin/keys/key_service.go:44-71 | it has, for any reserved labels, a run that commits a version of an agent's key with neither row nor secret at the agent |
| Paging.ListKeys | pkg/store/sql/key.go:277-377 | a page is the first rows after the cursor in strict order that the filters select, labels included, full if it names a next cursor and complete if not; no row is reported as not found |
| Paging.PagesInOrder | pkg/store/sql/key.go:318-376 | the rows of all pages come in strict order whatever happens to the table meanwhile |
| Paging.EachRowOnce | pkg/store/sql/key.go:318-376 | every row that matched throughout is returned exactly once |
| Paging.FullPages | pkg/store/sql/key.go:336-376 | every page but the last is full |
| Paging.NextPageNotEmpty | pkg/store/sql/key.go:362-376 | while rows are only added a next cursor is never followed in vain |
| Paging.FixedTable | pkg/store/sql/key.go:318-376 | on a table that stands still the pages put together are the one sorted list of the selected rows |
| Like.EscapeIsEach | pkg/store/sql/key.go:380-385 | the three ordered replacements are one escape per character |
| Like.EscapedPatternIsSubstring | pkg/store/sql/key.go:380-385 | the pattern of an escaped query matches exactly the names the query occurs in |
| Like.NameFilterIsSubstring | pkg/store/sql/key.go:302-304 | the same up to case |
| Identities.WriteURI | internal/identity/identity.go:80-95 | the loop writes scheme, domain and every type and name |
| Identities.Parse | internal/identity/identity.go:102-137 | succeeds exactly on the strings that denote a valid identity, with that identity |
| Identities.DenotesOne | internal/identity/identity.go:102-137 | no string denotes two identities |
| Identities.PrintAfterParse | internal/identity/identity.go:80-137 | printing what was parsed gives the string back, or the string without its one trailing slash after a bare domain |
| Selectors.WriteSelector | internal/identity/selector.go:102-120 | the loop writes the selector's text and stops at the double wildcard |
| Selectors.ParseSelector | internal/identity/selector.go:127-147 | parsing and printing are exact inverses on what parsing accepts |
| Selectors.ReadPath | internal/identity/selector.go:149-186 | the loop reads exactly the fields of a path, with the double wildcard only at its end |
| Selectors.ReadPrinted | internal/identity/selector.go:102-186 | reading inverts printing on parsed fields |
| Selectors.PrintRead | internal/identity/selector.go:149-186 | printing inverts reading, and what is read is well-formed |
| Selectors.Matches | internal/identity/selector.go:81-99 | matching is positional until the double wildcard takes the rest, on any selector and identity |
| Selectors.MatchingIsLanguage | internal/identity/selector.go:81-99 | a selector matches an identity exactly when its URI is in the language of the selector's text |
| Selectors.UriSelectsItself | internal/identity/selector.go:127-147 | the URI of an identity with fields is the text of a selector that matches that identity only |
| SecureMem.Data.Destroy | internal/securemem/data.go:109-146 | wipes the memory, unless it is read-only and the system refuses to make it writable: then nothing changes; harmless on a destroyed buffer |
| SecureMem.Data.Zero | internal/securemem/securemem.go:17-23 | every byte is zero afterwards |
| SecureMem.Data.MarkReadOnly | internal/securemem/data.go:154-169 | a live buffer is read-only or the call fails; a destroyed one is passed over |
| SecureMem.NewData | internal/securemem/data.go:65-90 | a fresh, zeroed, writable buffer of positive size, or none |
| SecureMem.MemVault.Reserve | internal/securemem/memvault.go:30-48 | adds one fresh entry under a free name, or nothing |
| SecureMem.MemVault.Import | internal/securemem/memvault.go:125-142 | adds the given buffer under a free name, or nothing |
| SecureMem.MemVault.Destroy | internal/securemem/memvault.go:66-85 | the name goes exactly if the destroy reported no error |
| SecureMem.MemVault.DestroyAll | internal/securemem/memvault.go:88-104 | a name stays listed exactly if its destroy reported an error, and a buffer stays live only if each of its names was refused |
| SecureMem.MemVault.MarkAllReadOnly | internal/securemem/memvault.go:107-122 | without an error every live entry is read-only, and no bytes change |
| SecureMem.Finish | internal/securemem/handler.go:63-118 | for any vaults a handler leaves: temporaries are gone, persistent entries of their own are frozen with their bytes on success, and both vaults are wiped on failure, refusals excepted |
| SecureMem.SharedEntryIsLost | internal/securemem/handler.go:71-93 | a buffer in both vaults comes back destroyed from a run that succeeds, unless that was refused |
| Processor.CallRemote | internal/keyprocessor/remotemanager.go:43-150 | the bytes sent are the caller's; the caller's buffer is gone afterwards whatever the answer; the result is a live read-only buffer of its own with the bytes of the answer, and no other new buffer is left |
| Processor.CopySec | internal/keyprocessor/processor.go:314-321 | another buffer with the same bytes; none of a destroyed buffer |
| Processor.CreateSecret | internal/keyprocessor/processor.go:86-118 | of the buffers the generator and the two sealers hand over every one is gone afterwards, in every outcome, also when two names are one buffer or a sealer destroyed it already; no other buffer is touched; the vault is given the bytes of the parent's reply, exactly if every step before came through |
| Processor.ResolveSecret | internal/keyprocessor/processor.go:182-227 | the same for what the vault and the two sealers hand over; the secret handed out is a new live read-only buffer with the bytes of the last reply, and no other new buffer is left |

## Left out

- Concurrent handlers on one key, and interleavings inside a handler call: a call is one step.
- The scheduler itself: order of jobs in a group, back-off and retries are any deliveries at any moment.
- Labels of tenants and of key versions, except the provider-key label, and the syntax of labels: keys keep theirs, with the reserved prefix.
- Request checks on identifiers and label syntax, and the split of errors into gRPC codes beyond retry and abort.
- AES-GCM, random generation, YAML, JSON and base64 codecs, SQL parsing and the cursor encoding.
- TLS, interceptors, connection registry, KMIP server, OpenBao client, command line and configuration loading.
- Agent heartbeats, and the older version-creation path in internal/keyoperator/keyversion.go.
- Garbage-collector cleanups of buffers and of the root manager's static secret.
- Compromised and destroyed keys: no step leads there, so only the transition table speaks of them.
- Agent and tenant tables beyond the existence of a tenant.
- Handler.Handle: the chain of transaction functions is one sequence of calls, so the loop of ChainTransaction is not modelled on its own.
- SecureMem.Finish: the handler is not modelled as a callback; its effect is any pair of vaults.
