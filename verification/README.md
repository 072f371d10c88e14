# DevPod verification

A Dafny model of the DevPod gateway, its controllers, the supervisor that runs as
PID 1 in a DevPod, and the quota gate of the web UI, with machine-checked proofs of
what they promise. `dafny verify dfyconfig.toml` checks everything.

| files | what they model |
|---|---|
| `SshBridge`, `SshBridgeProofs`, `SshBridgeTheorems`, `SshBridgeProgress` | the five goroutines that bridge one SSH channel, two peers and the SSH library between them: order, fidelity, deadlock freedom, and what arrives while both channels stay open |
| `LdapCache`, `LdapCacheProofs`, `LdapCacheTheorems`, `LdapSource` | the LDAP identity cache with stale-while-error and singleflight, as a concurrent system and as an object used sequentially |
| `LdapEscape` | escaping of LDAP filter values |
| `AuthChain` | authentication over an ordered chain of sources, down to the address a login is sent to |
| `Render` | rendering of a DevPod into a Pod, names and ports |
| `Controller`, `ControllerInvariants`, `ControllerFrames`, `ControllerTheorems` | the DevPod reconciler, one API call per step, against users, kubelet and garbage collector |
| `ControllerBackoff`, `ControllerPorts`, `ControllerOwners`, `ControllerSupplies` | the failure backoff over every run; when a reported endpoint is served; the home volume's owners and when it is lost; what stands before a Pod is created |
| `ControllerConvergence`, `ControllerSettling` | uninterrupted reconciles: how many until a DevPod is settled, and that it stays so |
| `ControllerProgress` | convergence with everything else interleaved between the API calls |
| `ControllerWitnesses` | runs, for every configuration and spec, into the states where the reconciler falls short |
| `Snapshot`, `SnapshotTheorems` | the snapshot reconciler with crashes between API calls |
| `Quota`, `QuotaServer`, `QuotaRuns` | metering, the request handlers as steps on the store, and quotas as an invariant of every run |
| `Supervisor`, `SupervisorTheorems` | the reaping loop of PID 1 and its exit code as a property of the trace of waits |
| `Passwd`, `SetEnv` | the `/etc/passwd` rewriter and the environment quoter of the supervisor |
| `Wrappers` | Option and Result |

Code that changes things step by step is imperative here too: loops are methods with
loops (`Controller.FilterOwners`, `Quota.CheckQuota`, `Passwd.RewriteRootPasswd`, ...), objects
written in place are classes (`LdapSource.Source`, `QuotaServer.Server`, `QuotaServer.Draft`,
`Supervisor.Child`) or arrays (`Render.WrapTargetWithSupervisor`). Concurrency, crashes and
the interleaving of controllers with the rest of the cluster are step systems: an `Action`
datatype, `Enabled`, `Apply`, and theorems over every run or every reachable state.

## What the proofs found

Places where the code does less than its comments or its intent. Each has a run that shows
it and, where the property is about a state, the exact condition under which it holds.

- Stderr of a bridged channel can be cut off: nobody waits for the stderr copier, and
  stdout's EOF closes the way for it (`SshBridgeTheorems.StderrCanBeCut`); it arrives in full
  exactly when it was all delivered by then (`StderrArrivesIff`).
- The failure backoff holds back one reconcile only: a reconcile that finds no Pod wipes the
  mark, and the next one creates the Pod with no time passed
  (`ControllerWitnesses.BackoffDefeatedInSomeRun`); the wait is kept exactly when that next
  reconcile comes late enough by itself (`ControllerSettling.BackoffKeptIff`), and the mark is
  erased exactly by the status patches wanted of no Pod or of one not seen failed
  (`ControllerBackoff.MarkErasedIff`). `api/v1alpha1/devpod_types.go:225-229` says the count is
  reset when the Pod reaches Running. While the mark is there the gate holds for every
  creation (`ControllerBackoff.CreationWaitsForBackoff`).
- After deleting a running Pod for drift the status is Running with the port of the new
  spec, which that Pod does not serve (`ControllerWitnesses.EndpointDeadInSomeRun`,
  exactly when: `ControllerPorts.EndpointServedIff`).
- Switching persistence off before deletion skips the detach, and the home volume is
  collected (`ControllerWitnesses.HomeLostInSomeRun`, exactly when:
  `ControllerOwners.HomeLostIff`). With persistence on, the detach itself gives the volume to
  the collector when every other owner it names is a DevPod that is gone
  (`ControllerWitnesses.HomeLostByDetachInSomeRun`, exactly when:
  `ControllerOwners.DetachLosesIff`).
- The detach patch replaces the whole list of owners without asking whether it is still the
  list that was read: a reference added in between is lost
  (`ControllerWitnesses.OwnerLostInSomeRun`), one removed in between comes back; exactly when
  nothing is: `ControllerOwners.DetachKeepsIff`.
- The allow policy is one per owner but opens one port: when a DevPod of the same owner asks
  for another, the last one applied closes the port of the others
  (`ControllerWitnesses.PlainPortClosed`, exactly when: `ControllerTheorems.PolicyPortStep`;
  over runs in which they all ask for one port it stays open:
  `ControllerTheorems.AgreedPortStaysOpen`).
- During shutdown PID 1 exits once the user command is reaped; its comment says it waits for
  all tracked children (`SupervisorTheorems.ShutdownLeavesSshd`, `ExitCodeExact`).
- A snapshot Job is never adopted (`SnapshotTheorems.OrphanReachable`, `OrphanNeverAdopted`)
  when the worker crashes, or the snapshot is deleted, between creating the Job and recording
  it, and only then (`CreatedJobOrphanedIff`). The patches name no UID, so a late one lands on
  a recreated snapshot: one for success leaves it Succeeded without a Job
  (`SucceededWithoutJob`, exactly when: `SuccessHasJobIff`), one for Running leaves it with the
  Job of its predecessor (`RunningOnForeignJob`, exactly when: `OwnedIff`).
- Negative limits pass the must-declare check and let an owner end up over quota
  (`QuotaRuns.NegativeLimitsEscape`); at 2^31 - 1 DevPods the count check wraps
  (`Quota.CountGateExact`).
- After an error mark a call that had already missed the cache still asks the directory
  (`LdapCacheTheorems.MarkDoesNotStop`, exactly when: `LateCallStillAsks`, and for any state of
  the cache: `AskedIff`).
- Two logins can share an owner-scoped name, `a-b` with pod `c` and `a` with pod `b-c`
  (`AuthChain.LoginsCollideIff`); then the DevPod of the one decides over the other, which is
  denied without a look at its bare name (`AuthChain.ShadowedLogin`).
- A value with an apostrophe and nothing that forces quotes does not survive SetEnv
  (`SetEnv.RoundTripIff`); a malformed root line ahead of a good one hides the shell that was
  written (`Passwd.ReadsBackIff`).

## Model

| member | source | states |
|---|---|---|
| SshBridgeSafety.InvReachable | internal/gateway/proxy.go:142-231 | the bridge's invariant holds after any interleaving of the five goroutines and both peers |
| SshBridgeTheorems.CloseComesLast | internal/gateway/proxy.go:142-203 | a CLOSE the bridge sends is the last message of its trace and comes after the EOF, after every byte read and after every request of the other peer, exit-status included |
| SshBridgeTheorems.NoDataAfterEof | internal/gateway/proxy.go:216-218 | no data or stderr follows an EOF the bridge sent, on either side (section 5.3 of RFC 4254) |
| SshBridgeTheorems.EofWaitsForProgram | internal/gateway/proxy.go:158-195 | on a session channel the backend sees EOF only after a shell, exec or subsystem request was forwarded and answered, or the client's requests drained (section 6.5 of RFC 4254) |
| SshBridgeProgress.StartOpensGate | internal/gateway/proxy.go:170-190 | once a shell, exec or subsystem request has been answered and its forwarder has moved on, startProgSent is closed, and for channels that are no sessions it always is |
| SshBridgeProgress.EofProgress | internal/gateway/proxy.go:181-231 | with no CLOSE sent, after the client's EOF and a request for a program, the client-to-backend lane can move or is owed window or a verdict until the backend has the EOF |
| SshBridgeProgress.LaneSettled | internal/gateway/proxy.go:181-231 | with no CLOSE sent, a lane in which nothing can move has delivered all bytes, requests and answers, and EOF exactly when its source sent it (towards a session's backend: and the client asked for a program) |
| SshBridgeProgress.OpenSettles | internal/gateway/proxy.go:181-231 | with no CLOSE sent, every dutiful run reaches that state of both lanes within the measure |
| SshBridgeTheorems.SignalsCloseOnce | internal/gateway/proxy.go:155-179 | stdup, stddown and startProgSent are each closed at most once, and exactly once when the goroutine that closes it is done |
| SshBridgeTheorems.StreamFidelity | internal/gateway/proxy.go:25-38 | bytes delivered are a prefix of bytes read, which are a prefix of bytes sent; the counter is what was read and exceeds delivery only by the buffer in flight or dropped |
| SshBridgeTheorems.RequestFidelity | internal/gateway/proxy.go:181-200 | requests are forwarded in order and each gets one answer, the far side's verdict |
| SshBridgeTheorems.StderrInOrder | internal/gateway/proxy.go:205-206 | stderr arrives in order and unchanged |
| SshBridgeTheorems.StderrPending | internal/gateway/proxy.go:205-206 | until the client is sent EOF or CLOSE no stderr is lost: all of it is delivered, in the copy buffer or unread |
| SshBridgeTheorems.StderrFrozenRun | internal/gateway/proxy.go:205-219 | from then on no run delivers another byte of stderr |
| SshBridgeTheorems.StderrArrivesIff | internal/gateway/proxy.go:205-219 | in every continuation the backend's stderr arrives completely if and only if all of it had been delivered by then and the backend adds nothing |
| SshBridgeTheorems.StderrCanBeCut | internal/gateway/proxy.go:205-219 | a reachable state in which stderr bytes are lost while the client's channel is still open |
| SshBridgeTheorems.NoDeadlock | internal/gateway/proxy.go:158-231 | once a peer has closed, until everything is done a goroutine can move or a peer owes a message, a session that never asked for a program included |
| SshBridgeTheorems.WorkStep | internal/gateway/proxy.go:181-231 | every step of a goroutine or owed by a peer lowers the measure; a voluntary one raises it by a stated amount |
| SshBridgeTheorems.RunBound | internal/gateway/proxy.go:181-231 | the length of any run is bounded by what the peers volunteered |
| SshBridgeTheorems.DutifulBound | internal/gateway/proxy.go:181-231 | a run in which peers only do what they owe is no longer than the measure at its start |
| SshBridgeTheorems.CloseCompletes | internal/gateway/proxy.go:142-231 | after a peer has closed, every maximal dutiful run ends with all five goroutines finished and both sides closed |
| LdapCacheProofs.InvReachable | internal/gateway/ldap.go:156-234 | the cache's invariant over all interleavings of calls, clock and directory |
| LdapCacheTheorems.BoundedStaleness | internal/gateway/ldap.go:156-234 | every result but an error is what the directory answered for that user, at an age below ttl, or ttl + grace when stale, at the reading of the call or its leader, or this flight's own answer; the same bounds hold of when the directory really answered |
| LdapCacheTheorems.OneLookupPerUser | internal/gateway/ldap.go:187-219 | two calls of one user are never in a live lookup at once |
| LdapCacheTheorems.FlightNeverNil | internal/gateway/ldap.go:221-233 | a flight without error carries keys or an entry: the nil and default branches are dead |
| LdapCacheTheorems.InstallRefines | internal/gateway/ldap.go:187-219 | installing an outcome changes that user's entry, and nobody else's, as the sequential cache would, and returns what it would |
| LdapCacheTheorems.OnlyInstallWrites | internal/gateway/ldap.go:159-186 | no other step touches cache or entries |
| LdapCacheTheorems.EntriesNeverChange | internal/gateway/ldap.go:191-211 | over any run an entry keeps its keys and fetchedAt; a failed lookup can only mark it |
| LdapCacheTheorems.CheckServesIff | internal/gateway/ldap.go:159-182 | the check serves an entry without keys for NegativeCacheTTL, one with keys for CacheTTL, and a marked one StaleGrace longer; otherwise the call goes on to ask |
| LdapCacheTheorems.ErrorServesIff | internal/gateway/ldap.go:189-208 | a failed lookup marks the entry and serves it for that same time, and otherwise returns its error |
| LdapCacheTheorems.NoLookupInGrace | internal/gateway/ldap.go:177-181 | with an entry marked and no call on its way, no live lookup for that user happens before fetchedAt + ttl (or the negative one) + grace |
| LdapCacheTheorems.AskedIff | internal/gateway/ldap.go:156-234 | in every reachable state the directory can be asked about a user before the clock moves if and only if no entry serves now, or a call of that user is past its check or brings back what will not serve |
| LdapCacheTheorems.LateCallStillAsks | internal/gateway/ldap.go:177-188 | inside the grace window of a marked entry that is: if and only if some call of that user is past its check or holds an answer read a ttl ago |
| LdapCacheTheorems.MarkDoesNotStop | internal/gateway/ldap.go:187-200 | under every configuration with a grace window some run gets there: the call behind the failed one asks again |
| LdapCacheTheorems.CountersAddUp | internal/gateway/ldap.go:172-219 | hit + miss + error is the number of landed flights; cache_fresh, up-front cache_stale and flight joins make up the calls past their check |
| LdapSource.Source.Resolve | internal/gateway/ldap.go:156-234 | one caller's Resolve changes its user's entry, in place for an error mark, exactly as the sequential cache says and leaves other users alone |
| LdapSource.ServedIff | internal/gateway/ldap.go:156-234 | the sequential cache asks exactly when the entry does not serve: an entry without keys serves for NegativeCacheTTL, one with keys for CacheTTL, a marked one StaleGrace longer, also after a failed lookup |
| LdapSource.LookupsAreSpaced | internal/gateway/ldap.go:165-211 | successive live lookups for a user are at least CacheTTL apart, NegativeCacheTTL if the first found nobody, and after a failure wait for that time of the entry and the grace |
| LdapSource.CheckRefines | internal/gateway/ldap.go:159-182 | the up-front check answers exactly when the sequential cache would, with its result, and writes nothing |
| LdapEscape.EscapeRFC4515 | internal/gateway/ldap_escape.go:12-50 | fast path and byte loop together compute the character-wise escape |
| LdapEscape.SafeUnchanged | internal/gateway/ldap_escape.go:16-29 | a value without special characters is its own escape |
| LdapEscape.DecodesBack | internal/gateway/ldap_escape.go:31-49 | the escape is a legal filter value and decodes to the input (section 3 of RFC 4515) |
| LdapEscape.NoRawSpecials | internal/gateway/ldap_escape.go:31-49 | no parenthesis, asterisk or NUL comes through |
| LdapEscape.EscapeInjective | internal/gateway/ldap_escape.go:12-50 | different values have different escapes |
| AuthChain.MatchesAnyParsed | internal/gateway/auth.go:205-213 | true exactly when the offered key is listed |
| AuthChain.AccessAllowed | internal/gateway/auth.go:191-201 | true exactly for the owner and the collaborators |
| AuthChain.Authenticate | internal/gateway/auth.go:97-187 | the whole decision with the audit path of every outcome: login format, owner-scoped then bare DevPod name, trusted proxy, source loop, final checks; granted exactly when a proxy vouches or some source lists the key, for owner or collaborator of a Running DevPod with an endpoint; not-found and mismatch each exactly when |
| AuthChain.ReadsDecide | internal/gateway/auth.go:97-122 | not found exactly when both names are missing, a read error exactly when the scoped read fails or the bare one does after a missing scoped one; the bare name is read only then |
| AuthChain.PathExact | internal/gateway/auth.go:124-130 | a trusted proxy's key is audited as such under its alias without asking a source; any other login is direct, without an alias |
| AuthChain.NamesDiffer | internal/gateway/login_name.go:38-44 | the owner-scoped name is never the bare one |
| AuthChain.LoginsCollideIff | internal/gateway/login_name.go:38-44 | two logins share the owner-scoped name exactly when one puts the dash elsewhere in the other's owner and pod |
| AuthChain.ShadowedLogin | internal/gateway/auth.go:106-118 | then the DevPod of the one answers for the other, which is denied whatever its bare name holds |
| AuthChain.GrantAttribution | internal/gateway/auth.go:135-158 | a direct grant names the first source that lists the key, its staleness and the last error before it |
| AuthChain.LastErrorIs | internal/gateway/auth.go:140-144 | LastSourceErr is the error of the last failing source |
| AuthChain.OrderNeverDecides | internal/gateway/auth.go:129-166 | permuting the sources changes neither verdict nor reason |
| AuthChain.LdapGrantIsBacked | internal/gateway/auth.go:135-158 | a grant through LDAP rests on a directory answer listing the key, within the staleness bound |
| AuthChain.GrantLeadsToPod | internal/gateway/auth.go:172-187 | over every reachable store a grant is sent to the address of a Pod seen running, on the BackendPort of its spec |
| Render.NamesInjective | internal/render/render.go:67-80 | derived names never collide |
| Render.BackendPortRange | internal/render/render.go:93-107 | host-network DevPods listen in [65000, 65500), on 65000 plus the hash of the UID modulo 500, whatever else they ask for; others on the configured port, 2222 if there is none |
| Render.Fnv32aKnown | internal/render/render.go:93-107 | the hash has the published values of 32-bit FNV-1a for the empty text and a letter |
| Render.WrapTargetWithSupervisor | internal/render/pod.go:89-135 | in place, exactly the first container with the target name is wrapped; without one, an error and no change |
| Render.InjectHomeMount | internal/render/pod.go:221-244 | in place, exactly the first container with the target name gets the home mount; without one, an error and no change |
| Render.RenderedPodServesPort | internal/render/pod.go:33-135 | in a rendered Pod the target runs the supervisor on the user's command with BackendPort in its environment, whatever the user put there; other containers keep theirs |
| Render.RenderedHome | internal/render/pod.go:217-244 | with persistence the target container mounts the home volume writable at mountPath, no other container changes, and the volumes are the user's and three more |
| Render.RenderedHostHome | internal/render/pod.go:187-214 | without it the configured host path is mounted as the first container's home under the owner's name, with HOME set to it |
| Render.WrappedOther | internal/render/pod.go:89-135 | of the target's environment exactly the supervisor's own variables are overridden |
| Render.RenderedBootstrap | internal/render/pod.go:66-72 | the bootstrap container of the configured image comes before the user's init containers |
| Render.RenderOkIff | internal/render/pod.go:33-65 | a Pod renders exactly when a container has the target name |
| Controller.FailureBackoff | internal/controllers/devpod_controller.go:566-575 | the doubling loop with its cap computes the backoff function |
| Controller.BackoffClosedForm | internal/controllers/devpod_controller.go:566-575 | the backoff is min(10 * 2^(max(n,1)-1), 300) seconds |
| Controller.FilterOwners | internal/controllers/devpod_controller.go:223-234 | the filter loop keeps the other owners and reports whether it dropped any |
| Controller.OtherOwnersExact | internal/controllers/devpod_controller.go:223-231 | exactly the references of others remain, with their multiplicity |
| Controller.HasLiveSibling | internal/controllers/devpod_controller.go:250-262 | the sibling loop finds a live DevPod of the owner exactly when there is one |
| ControllerInvariants.InvStep | internal/controllers/devpod_controller.go:67-349 | every API call, crash, user, kubelet and collector step keeps the store's invariant |
| ControllerInvariants.InvReachable | internal/controllers/devpod_controller.go:67-349 | the invariant holds in every reachable store |
| ControllerFrames.WorkFramed | internal/controllers/devpod_controller.go:67-349 | what a single API call may change of DevPods, Pods, Secrets, policies and statuses |
| ControllerTheorems.RunningMeansReachable | internal/controllers/devpod_controller.go:313-322 | Running comes with podIP:BackendPort of a Pod seen running, its own if it was applied; unless it was just deleted for drift, that is the port its supervisor was given |
| ControllerTheorems.PhaseTold | internal/controllers/devpod_controller.go:290-333 | in every reachable store each phase says what was seen: Running a Pod running with an address, Failed a failed Pod, Pending any other or a missing one, Stopped that none was wanted |
| ControllerTheorems.StoppedIsEmpty | internal/controllers/devpod_controller.go:298-305 | Stopped means no endpoint, no workload reference, a hibernation time and no failure mark |
| ControllerTheorems.HibernatedAtIsSticky | internal/controllers/devpod_controller.go:300-305 | while a DevPod stays stopped no step changes its hibernation time |
| ControllerTheorems.PolicyCoversApplied | internal/controllers/devpod_controller.go:172-186 | every live DevPod that applied its objects has its owner's allow policy |
| ControllerTheorems.PolicyPortStep | internal/controllers/devpod_controller.go:172-186 | the port an owner's policy opens is that of the DevPod whose allow call came last: exactly an allow call for another port changes it |
| ControllerTheorems.AgreedPortStaysOpen | internal/controllers/devpod_controller.go:172-186 | over every run in which the owner's DevPods ask for one port at their allow calls, the policy opens that port for every live one that applied its objects |
| ControllerWitnesses.PortClosedInSomeRun | internal/controllers/devpod_controller.go:182-185 | for any two DevPods of one owner that ask for different ports some run leaves a live one, applied, whose port its policy does not open |
| ControllerWitnesses.PlainPortClosed | internal/render/networkpolicy.go:42-81 | a DevPod and its copy on the host network are such a pair |
| ControllerTheorems.PolicyOnlyWhileStored | internal/controllers/devpod_controller.go:245-274 | without deletions before the finalizer is written, a policy exists only while a DevPod of its owner is stored |
| ControllerTheorems.DropsIff | internal/controllers/devpod_controller.go:250-264 | a DevPod on its way out drops the policy exactly when all others of its owner are being deleted |
| ControllerTheorems.RemovedAsRead | internal/controllers/devpod_controller.go:78-90 | the reconciler removes a DevPod only as it read it, marked and not written since |
| ControllerSupplies.SuppliedBeforePod | internal/controllers/devpod_controller.go:136-166 | over every run a Pod is created for the DevPod stored, rendered from the spec that was read, and only once its own non-empty host key is stored and, with persistence, its home volume names it |
| ControllerSupplies.AppliedMeansIsolated | internal/controllers/devpod_controller.go:172-186 | once any DevPod has applied its owner's policy the default-deny policy stands; without isolation neither is applied |
| ControllerSupplies.HomeHasOneController | internal/controllers/devpod_controller.go:498-503 | over every run a home volume has at most one controller |
| ControllerTheorems.SecretStep | internal/controllers/devpod_controller.go:395-428 | no step changes a stored Secret and only the collector removes one |
| ControllerTheorems.HostKeySurvives | internal/controllers/devpod_controller.go:395-428 | over every run the host key is unchanged for as long as its DevPod is stored |
| ControllerOwners.DetachKeepsIff | internal/controllers/devpod_controller.go:211-238 | from the lookup to the patch, over every run in between: the patch leaves exactly the references of others that were read, with their multiplicity; one present by then survives if and only if it was read, and the list of others is left alone if and only if their edits come to nothing |
| ControllerWitnesses.OwnerLostInSomeRun | internal/controllers/devpod_controller.go:235-237 | for every persistent DevPod and every owner of another kind some run loses that owner's reference, added between lookup and patch |
| ControllerOwners.DetachLosesIff | internal/controllers/devpod_controller.go:208-238 | until the patch the volume is held; the patch makes it collectable if and only if others were read and all of them are DevPods that are gone |
| ControllerWitnesses.HomeLostByDetachInSomeRun | internal/controllers/devpod_controller.go:208-238 | for every persistent DevPod some run lets the volume be collected that way, while the DevPod is still stored |
| ControllerOwners.HomeSurvivesDeletion | internal/controllers/devpod_controller.go:78-90 | when the finalizer goes with persistence set, the home volume becomes collectable only if it already was |
| ControllerOwners.HomeLostIff | internal/controllers/devpod_controller.go:78-90 | otherwise, exactly: deletion makes the volume collectable if and only if persistence is off by then and the volume names this DevPod and else only DevPods that are gone |
| ControllerWitnesses.HomeLostInSomeRun | internal/controllers/devpod_controller.go:211-214 | for every DevPod with a home volume some run ends with that volume being collected |
| ControllerBackoff.GateReachable | internal/controllers/devpod_controller.go:442-480 | in every reachable store a status that blocks means no Pod or a failed one, at the apply call and at the status patch too |
| ControllerBackoff.CreationWaitsForBackoff | internal/controllers/devpod_controller.go:466-479 | every Pod creation, also after a matching Pod vanished between lookup and apply, waits min(10 * 2^(max(n,1)-1), 300) seconds from the failure still in the stored status |
| ControllerBackoff.OnlyApplyCreates | internal/controllers/devpod_controller.go:479 | no other step creates a Pod |
| ControllerBackoff.MarkErasedIff | internal/controllers/devpod_controller.go:290-349 | of all steps exactly a status patch wanted of no Pod, or of one not seen failed, erases a stored failure mark |
| ControllerBackoff.RetryStep | internal/controllers/devpod_controller.go:540-564 | every step's effect on the failure count: the failure patch dates it, adds one and takes the Pod's message, status patches keep or clear it, nothing else touches it |
| ControllerConvergence.FinishRuns | internal/controllers/devpod_controller.go:67-189 | an uninterrupted reconcile ends and is a run of the step system |
| ControllerSettling.ReconcileRunning | internal/controllers/devpod_controller.go:104-189 | one reconcile of a running DevPod: exactly how Pods and status move |
| ControllerSettling.StatusFollowsPod | internal/controllers/devpod_controller.go:290-349 | the whole status after it, read off the Pod there is then: Running, Failed or Pending exactly when, endpoint, workload and volume references, count, mark and message |
| ControllerSettling.WantedStatus | internal/controllers/devpod_controller.go:306-333 | the status wanted of any Pod, failed ones included, case by case |
| ControllerSettling.RequeueExact | internal/controllers/devpod_controller.go:442-480 | a reconcile asks to come back after the time left of a backoff, after the whole next backoff when it met a failed Pod, and otherwise not at all |
| ControllerSettling.RoundLowers | internal/controllers/devpod_controller.go:442-480 | every uninterrupted reconcile, with deletions completing, lowers the measure until it is zero |
| ControllerSettling.Converges | internal/controllers/devpod_controller.go:92-132 | after that many uninterrupted rounds the live Pod carries the rendered spec |
| ControllerProgress.BenignStep | internal/controllers/devpod_controller.go:67-189 | one step of anything, own API calls, crashes, other DevPods, kubelet, users and collector included, never raises the measure, and a completed reconcile lowers it unless a Pod is left terminating |
| ControllerProgress.ConvergesInterleaved | internal/controllers/devpod_controller.go:92-132 | over every such run, with all of that between the API calls, as many completed reconciles as the measure counts bring the live Pod to the rendered spec |
| ControllerProgress.NeverSetBack | internal/controllers/devpod_controller.go:442-480 | k completed reconciles leave the measure at least k lower |
| ControllerSettling.FourRoundsSuffice | internal/controllers/devpod_controller.go:92-132 | four rounds are enough from any state |
| ControllerSettling.KubeletNeverSetsBack | internal/controllers/devpod_controller.go:452-479 | Pod progress, completed deletions and time never raise the measure |
| ControllerSettling.ReconcileSettles | internal/controllers/devpod_controller.go:290-349 | at measure zero a reconcile changes no Pod and leaves the wanted status |
| ControllerSettling.SettledIsQuiet | internal/controllers/devpod_controller.go:336-338 | from there reconciles change no Pod, Secret or volume and write no status |
| ControllerSettling.FallsAsleep | internal/controllers/devpod_controller.go:104-109 | one reconcile puts a hibernated DevPod to sleep: its Pod is on its way out, and it is dated unless it was stopped already |
| ControllerSettling.WantedStopped | internal/controllers/devpod_controller.go:298-305 | the status wanted of it, field by field |
| ControllerSettling.AsleepIsQuiet | internal/controllers/devpod_controller.go:195-206 | later ones write nothing, whether or not its Pod is gone |
| ControllerSettling.BackoffKeptIff | internal/controllers/devpod_controller.go:466-479 | with the Pod gone a reconcile creates one exactly when the mark does not block; otherwise it wipes the mark and the next one creates it, so the closed-form wait is kept if and only if that one comes after it |
| ControllerWitnesses.BlockedReachable | internal/controllers/devpod_controller.go:537-564 | for every DevPod that renders a run leads to that state: launched, failed, deleted |
| ControllerWitnesses.BackoffDefeatedInSomeRun | internal/controllers/devpod_controller.go:331-333 | so in some run a Pod is created with no time passed since the failure |
| ControllerSettling.DriftReportsNewPort | internal/controllers/devpod_controller.go:460-465 | deleting a running Pod for drift leaves Running with the new spec's port |
| ControllerSettling.DriftEndpointIsDead | internal/controllers/devpod_controller.go:313-319 | if the port changed, that Pod's supervisor was told another one |
| ControllerPorts.ProvenanceReachable | internal/controllers/devpod_controller.go:442-450 | every Pod, stored or seen by a status, was rendered from some spec of its owner |
| ControllerPorts.EndpointServedIff | internal/controllers/devpod_controller.go:313-319 | in every reachable store a Running endpoint is the port its Pod's supervisor was given if and only if the spec the Pod was rendered from asks for the same BackendPort as the spec the status was written for |
| ControllerPorts.SamePortIff | internal/render/render.go:93-107 | two specs of one DevPod ask for the same port exactly when they agree on host networking, unless the configured port is the derived one |
| ControllerWitnesses.EndpointDeadInSomeRun | internal/controllers/devpod_controller.go:460-465 | for every DevPod moved to the host network some run reports a port nobody serves |
| Snapshot.ReadConditions | internal/controllers/snapshot_controller.go:139-147 | done exactly when the first true final condition is Complete, broken with its message exactly when it is Failed |
| SnapshotTheorems.InvReachable | internal/controllers/snapshot_controller.go:44-127 | the invariant holds in every reachable state |
| SnapshotTheorems.FinalPhasesAbsorb | internal/controllers/snapshot_controller.go:56-59 | no step changes the status of a Succeeded or Failed snapshot |
| SnapshotTheorems.JobRefOnlyWithRunning | internal/controllers/snapshot_controller.go:198-203 | the Job reference is set only together with Running, to the derived name, and never changed or cleared |
| SnapshotTheorems.JobCreation | internal/controllers/snapshot_controller.go:110-126 | a Job is created only by a reconcile that sees no inline credentials, never over an existing one, with the Secret referred to |
| SnapshotTheorems.AuthMoves | internal/controllers/snapshot_controller.go:220-250 | inline credentials leave the spec only for a reference to the derived Secret |
| SnapshotTheorems.AuthKeepsEdits | internal/controllers/snapshot_controller.go:220-250 | that update changes nothing else and goes through only on the object that was read, so no edit is undone |
| SnapshotTheorems.AuthSecret | internal/controllers/snapshot_controller.go:220-240 | the Secret holds the credentials when this reconcile made it; one that was there is taken as it is |
| SnapshotTheorems.JobNeedsPod | internal/controllers/snapshot_controller.go:75-108 | a Job is asked for only with a running DevPod and a running, placed Pod that has the container; whatever is missing fails the snapshot |
| SnapshotTheorems.ReportIff | internal/controllers/snapshot_controller.go:129-150 | success is reported exactly after reading a Job whose first true final condition is Complete, failure with its message after one whose is Failed or a missing Job, and neither otherwise |
| SnapshotTheorems.SuccessWasSeen | internal/controllers/snapshot_controller.go:129-150 | in every run a snapshot is Succeeded only after some reconcile read such a complete Job |
| SnapshotTheorems.PatchLands | internal/controllers/snapshot_controller.go:180-216 | the reported outcome is what the stored snapshot gets, and nothing else of it changes |
| SnapshotTheorems.SucceededHasJob | internal/controllers/snapshot_controller.go:129-150 | Succeeded implies the Job reference in runs that delete no snapshot during its reconcile |
| SnapshotTheorems.SuccessHasJobIff | internal/controllers/snapshot_controller.go:205-216 | a success patch leaves a snapshot with its Job exactly when it lands on the object the reconcile read |
| SnapshotTheorems.StalePatchHitsSuccessor | internal/controllers/snapshot_controller.go:205-216 | from every state about to report success, deleting and recreating the snapshot makes the new one Succeeded without a Job |
| SnapshotTheorems.SucceededWithoutJob | internal/controllers/snapshot_controller.go:205-216 | for every snapshot without inline credentials some run ends there |
| SnapshotTheorems.JobIsOwn | internal/controllers/snapshot_controller.go:110-126 | in runs that delete no snapshot during its reconcile the Job a snapshot refers to is its own |
| SnapshotTheorems.OwnedIff | internal/controllers/snapshot_controller.go:198-203 | in any run the only step that breaks this is a Running patch that meets another object than the one read |
| SnapshotTheorems.RunningOnForeignJob | internal/controllers/snapshot_controller.go:198-203 | for every snapshot without inline credentials some run leaves its successor Running on the old Job |
| SnapshotTheorems.CreatedJobOrphanedIff | internal/controllers/snapshot_controller.go:119-126 | a created Job that stays goes unrecorded if and only if the worker crashes before the patch or the snapshot is gone when it arrives |
| SnapshotTheorems.OrphanReachable | internal/controllers/snapshot_controller.go:119-126 | for every snapshot without inline credentials some run ends in such a crash |
| SnapshotTheorems.OrphanNeverAdopted | internal/controllers/snapshot_controller.go:119-124 | such a Job is never adopted while it exists: no reference, neither Running nor Succeeded |
| Quota.PodLimits | internal/webui/quota.go:63-77 | for every resource the sum over containers plus the sum over init containers |
| Quota.ContainersMetered | internal/webui/quota.go:63-77 | a Pod without containers meters zero and each container added to either list, at any place, adds its own limits |
| Quota.DevPodMetered | internal/webui/quota.go:97-100 | a DevPod adds compute only while it runs a Pod and its volume always, wherever it stands in the list |
| Quota.CheckLimits | internal/webui/quota.go:83-90 | reports the first container without cpu or memory limit, if any |
| Quota.RequireLimits | internal/webui/quota.go:82-95 | no error exactly when every container and init container declares non-zero cpu and memory; else the first offender, containers first |
| Quota.SortedNames | internal/webui/quota.go:126-130 | the resource names in strictly ascending order |
| Quota.CheckQuota | internal/webui/quota.go:101-176 | reports DevPods, compute by name and storage with requested, used and limit |
| Quota.ReportExact | internal/webui/quota.go:101-176 | the report entry by entry: count, each exceeded compute resource of a running proposal, storage, with requested, used and limit |
| Quota.NilIffFits | internal/webui/quota.go:101-176 | reports nothing exactly when no limit is exceeded |
| Quota.ReportsUnique | internal/webui/quota.go:126-146 | the report does not depend on map iteration order |
| Quota.ComputePartExact | internal/webui/quota.go:131-146 | exactly the exceeded compute resources, ascending, each with its own figures |
| Quota.CountGateExact | internal/webui/quota.go:104 | the 32-bit gate agrees with the count if and only if there are fewer than 2^31 - 1 DevPods or the wrapped count is over the limit too |
| QuotaServer.Draft.ApplyTemplate | internal/webui/template_apply.go:23-85 | stamps preset, then binding, in place; fails exactly when the template does not apply |
| QuotaServer.StampsIff | internal/webui/template_apply.go:23-70 | exactly when a template applies |
| QuotaServer.StampKeeps | internal/webui/template_apply.go:28-41 | the preset's Pod is taken as it is, its volume and shell only where the request has none, and nothing else changes |
| QuotaServer.BindingWins | internal/webui/template_apply.go:43-83 | the binding's annotations and resources win, in one container: the volume's target or the first |
| QuotaServer.Server.CheckQuotaFor | internal/webui/api_devpods.go:150-175 | the check against the owner's other DevPods under the effective quota; admins pass |
| QuotaServer.Server.Create | internal/webui/api_devpods.go:256-318 | stores exactly what the checks admit, or leaves the store alone |
| QuotaServer.UserCreateIff | internal/webui/api_devpods.go:256-318 | what a user's create stores, condition by condition: owner, name prefix, Kore annotations, template, no VM, declared limits, empty quota report, free name |
| QuotaServer.AdminCreateIff | internal/webui/api_devpods.go:256-318 | an admin's create is bound by template and name only |
| QuotaServer.Server.Patch | internal/webui/api_devpods.go:397-428 | flips the running flag of one visible DevPod; waking re-enters the check |
| QuotaServer.PatchedIff | internal/webui/api_devpods.go:397-428 | which request flips which DevPod's running flag, in both directions |
| QuotaServer.Server.Delete | internal/webui/api_devpods.go:430-444 | of the one visible DevPod, marks it when it has a finalizer and removes it otherwise |
| QuotaServer.DeletedExact | internal/webui/api_devpods.go:430-444 | a finalizer leaves everything but the deletion mark as it was; without one exactly that entry goes |
| QuotaServer.OwnQuotaWins | internal/webui/quota.go:38-60 | field by field the user's own quota wins over the defaults |
| QuotaServer.ExistingOfOwned | internal/webui/api_devpods.go:160-169 | listing by owner, then excluding, is the owner's other DevPods |
| QuotaRuns.ExcludeOne | internal/webui/api_devpods.go:165-169 | excluding the DevPod being updated takes out exactly its share |
| QuotaRuns.CreateKeeps | internal/webui/api_devpods.go:310-318 | an admitted create keeps every user within every limit |
| QuotaRuns.PatchKeeps | internal/webui/api_devpods.go:415-424 | so do waking and hibernating |
| QuotaRuns.MarkKeeps | internal/webui/quota.go:97-100 | finalizers and deletion marks change no share: a DevPod counts until it is gone |
| QuotaRuns.QuotaHolds | internal/webui/quota.go:97-176 | no sequence of creates, wakes, hibernates and deletes by non-admins brings any user above any limit |
| QuotaRuns.NegativeLimitsEscape | internal/webui/quota.go:85-87 | with a negative quantity the same steps end above the quota |
| QuotaRuns.KoreOnlyFromTemplate | internal/webui/template_apply.go:15-57 | a user's stored DevPod carries a Kore annotation only from its template |
| Supervisor.WaitForChildren | cmd/supervisor/main.go:151-220 | outcome, recorded exits and terminated children are those of the event-by-event semantics; no exit is written twice |
| Supervisor.DrainReapsBlocking | cmd/supervisor/main.go:260-288 | likewise for the drain |
| SupervisorTheorems.ExitCodeExact | cmd/supervisor/main.go:141-220 | for every stream of waits the exit code is the verdict of the first decisive event, and SIGTERM goes to the children left |
| SupervisorTheorems.DeathDecides | cmd/supervisor/main.go:194-230 | without shutdown the decisive death gives its exit code, 128 + signal, or 1 |
| SupervisorTheorems.UserDeathDecides | cmd/supervisor/main.go:184-192 | under shutdown the user command's death gives it in the same way |
| SupervisorTheorems.RemainingExact | cmd/supervisor/main.go:198-202 | terminated are exactly the children not yet reaped |
| SupervisorTheorems.ExitsAreFirstDeaths | cmd/supervisor/main.go:168-183 | a recorded exit is the code of that child's first death in the trace |
| SupervisorTheorems.DrainsIff | cmd/supervisor/main.go:260-288 | the drain ends exactly when all tracked children are reaped or a wait fails |
| SupervisorTheorems.OrphansNeverMatter | cmd/supervisor/main.go:168-177 | orphans, interrupted waits and recycled pids change nothing |
| SupervisorTheorems.ShutdownLeavesSshd | cmd/supervisor/main.go:185-187 | under shutdown the reaped user command ends it with sshd still running |
| SupervisorTheorems.OnlySshdEndsIt | cmd/supervisor/main.go:194-218 | without follow and shutdown only sshd's death or a failed wait is decisive |
| Passwd.RewriteRootPasswd | cmd/supervisor/shell.go:208-246 | the loop over lines rewrites the first well-formed root line or prepends one |
| Passwd.RootShellFromPasswd | cmd/supervisor/shell.go:190-202 | field 6 of the first line that begins with root:, empty if that has fewer than seven fields or there is none |
| Passwd.OthersKept | cmd/supervisor/shell.go:208-246 | every other line and every other field is kept byte for byte; an added line has root's usual fields |
| Passwd.ChangedIffDifferent | cmd/supervisor/shell.go:218-231 | unchanged is reported exactly when output and input are equal |
| Passwd.RewriteIdempotent | cmd/supervisor/shell.go:208-246 | rewriting again changes nothing |
| Passwd.ReadsBackIff | cmd/supervisor/shell.go:190-246 | the wanted shell is read back exactly when the first root line is well formed or none is |
| Passwd.SplitJoin | cmd/supervisor/shell.go:209-231 | splitting what was joined gives the parts back |
| Passwd.JoinSplit | cmd/supervisor/shell.go:209-231 | joining what was split gives the text back |
| SetEnv.ContainerEnvForSetEnv | cmd/supervisor/shell.go:119-140 | the loop forwards the filtered variables, quoted, in order |
| SetEnv.FilteredExact | cmd/supervisor/shell.go:106-136 | forwarded are exactly the entries without a managed name or prefix and without a line break in the value |
| SetEnv.FilteredInOrder | cmd/supervisor/shell.go:119-140 | in the order of the environment, entry by entry |
| SetEnv.CutExact | cmd/supervisor/shell.go:122-125 | names end at the first equals sign and nothing is lost |
| SetEnv.TwoPassesGuard | cmd/supervisor/shell.go:149-151 | replacing backslashes first guards every character exactly once |
| SetEnv.RoundTrip | cmd/supervisor/shell.go:142-152 | splitting the joined entries gives every assignment back, blanks, quotes and backslashes included |
| SetEnv.RoundTripIff | cmd/supervisor/shell.go:142-152 | and exactly when no value has an apostrophe without a blank, double quote or backslash |

## Left out

- SshBridgeTheorems.CloseCompletes: assumes peers that answer CLOSE with CLOSE and requests with a verdict and that keep granting window, as sections 5.2, 5.3 and 5.4 of RFC 4254 ask; a peer that never answers holds its goroutine as in the code.
- SshBridgeTheorems.NoDeadlock: request queues are unbounded in the model; golang.org/x/crypto/ssh bounds them at 16 and stops reading the connection while one is full, so this and SshBridgeTheorems.CloseCompletes hold for runs in which none fills up.
- SshBridge: `Proxy`'s fan-out of channel opens and global requests, and connection loss, are not modelled; one channel is. golang.org/x/crypto/ssh is not part of this model, its channel behaviour is stated at the top of `SshBridge.dfy`.
- SshBridge: goroutines are program counters over values; byte counters are unbounded and move in the step that reads.
- LdapCache: liveLookup's two search attempts, connection handling and key parsing are one step with its documented three outcomes; golang.org/x/sync/singleflight is taken as documented; times are integers and the zero time never occurs as a clock reading.
- LdapSource.Source.Resolve: one caller at a time; concurrent callers are LdapCache, where entries live on a heap of values instead of objects.
- AuthChain.Authenticate: the parsed login, the answers of the API server by name and each source's answer are inputs; a key stands for its own SHA-256 fingerprint.
- Render: passthrough fields nobody reads, labels and the contents of volumes.
- Controller: one worker and atomic API calls; client cache lag, finalizers stripped by hand and the merge rules of server-side apply beyond owner references are not modelled. A rendered spec stands for its hash, numbers for UIDs, a pair for the text of an endpoint.
- Controller: the collector takes an object once all owners it names are gone; foreground deletion, where dependents go while the owner is still stored, is not modelled, and owners of other kinds count as present. Others neither add nor remove a DevPod's own reference to its volume.
- Controller: Service contents, events, conditions and the failure text taken from container statuses.
- ControllerSettling.Converges: reconciles without interruption; ControllerProgress.ConvergesInterleaved is the statement with everything interleaved.
- ControllerProgress.ConvergesInterleaved: a Pod that keeps failing, names taken by foreign objects and VM DevPods are outside `Ready`; there the reconciler errs or backs off by design.
- Snapshot: one snapshot name, as the objects of different names never meet; the script the Job runs, registry names and docker config encoding.
- QuotaServer: quantities are integers; requests are handled one at a time, so two concurrent creates that each fit are not covered.
- QuotaServer.Draft.ApplyTemplate: whether a binding's annotation values are allowed is a flag on the binding.
- QuotaServer.Server.Create: starts from the structured DevPod; decoding of JSON, YAML and quantity texts and the label syntax of names are not modelled.
- QuotaRuns.QuotaHolds: assumes non-negative quantities, a fixed quota below 2^31 - 1 DevPods and non-admin sessions, all of which the code relies on and two of which are shown to be needed.
- Supervisor: signals are the shutdown flag each event carries; starting the children, forwarding signals and the bootstrap copy are left out.
- Passwd.ReadsBackIff: for shell and home values without a colon or newline, as an entry cannot hold others.
- SetEnv.RoundTripIff: for names without blanks, quotes or backslashes, which the quoter does not touch; comments in sshd's splitting are not modelled. OpenSSH is not part of this model; the splitting grammar is the one its configuration files document.
- The choice of shell, profile scripts, OAuth, sessions, CSRF, metrics other than the lookup counters, the React UI and the Helm chart.
