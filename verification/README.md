# Verification of the service broker proxy

The proxy keeps a platform (Cloud Foundry, Kubernetes) in step with a Service Manager (SM). SM holds brokers, service
plans and visibilities. For every broker of SM the platform should have one registration that points to the proxy, and the
platform should grant exactly the access that SM's visibilities describe. This project models how the proxy gets there and
proves what it achieves, for every input, every interleaving of its goroutines and every pattern of failing calls, as far
as the code provides it.

`dafny verify dfyconfig.toml` checks the whole project.

## The parts

* `Types`, `Text`, `Naming`: the records, and the strings that tie the two sides together: proxy names, proxy URLs,
  takeover keys, visibility keys.
* `World`: SM and the platform as the calls of the proxy see them, as a class whose fields the calls change. Every call may
  fail, and a call to the platform that fails may still have had its effect. All calls that could change something are
  logged; what can keep the proxy from making a call, a failed listing or a cancelled context, is counted.
* `TaskPool`, `PoolProgress`: the scheduler that every resync runs its calls through, as a state machine over its atomic
  actions: what holds at every point, and that it is never stuck and always ends.
* `Visibilities`, `VisibilityResync`, `VisibilityRuns`: the visibility half of a resync: the difference through string keys,
  passes over chunks of brokers, and the same calls as runs of the task pool.
* `Indexing`, `Brokers`, `BrokerConvergence`, `SharedCapture`, `SharedDeletion`, `DuplicateProxies`: the broker half:
  planning, what may be touched, convergence under every interleaving, and what the loop variable that the deletions share
  and second proxies of a broker do to it.
* `Credentials`, `Registrations`: the order in which credentials are offered to SM, used and activated.
* `Resync`: a whole resync, brokers first.
* `BrokerHandler`, `BrokerReplay`: handling one notification about a broker; agreement with a full resync; replaying
  notifications that a resync has already seen.
* `LabelChanges`, `VisibilityHandler`, `VisibilityUpdates`, `VisibilityTracking`: the same for visibilities, first one
  visibility against its notification, then the whole platform against all that SM grants.
* `Pipeline`, `Producer`: the connection loop, its reader and pinger, the resync timer, the bounded queue and the
  reconciler as one step relation; the headers of a connection and its arithmetic, tied to that relation.
* `Futures`: what a run of that relation can still come to.
* `VisibilityReplay`, `ResyncTracks`, `Stories`, `EndToEnd`: the same runs together with the registrations and rights on the
  platform: what replayed notifications and finished resyncs leave, and so from SM's log to the proxies and the access.
* `Reconciler`: the sequential consumer, which puts handlers and resyncs together, tied to the steps of `Pipeline`.

## What the proofs found

Each of these is a lemma with the inputs that show it, and where there is one, the exact condition.

* A connection attempt can adopt the revision from the headers and then fail on the ping period. The next attempt then asks
  for no resync, and everything up to that revision is lost until the next periodic one (`Pipeline.AdoptThenFailLosesUpdates`,
  exact condition `Producer.AdoptsAndFailsIff`). A resync that is given up because a listing fails loses the notifications
  that it discarded (`Pipeline.GivenUpResyncLosesUpdates`). Which changes are lost is exact, change by change:
  `Pipeline.AdoptingExposes`, `Pipeline.GivingUpExposes` and `Pipeline.ExposureHasCause`. All others are safe, in particular
  every notification that is sent afterwards and not drained (`Pipeline.SentIsSafe`).
* The first message in the queue need not be a resync, although a comment in the code says so; `Futures.ResyncIsFirstIffSettled`
  says at which points it is bound to be one.
* When the program is told to stop at the wrong moment, the connection loop hangs. It can still stop exactly if it is not
  handing over a request for a resync to a timer goroutine that has stopped, or that can only stop because the queue is full
  and the reconciler is gone (`Futures.CanStopUnlessDoomed`).
* The tasks that delete orphaned proxies share one loop variable: with two orphans or more one can be skipped, and then the
  resync does not converge although every call succeeds. `BrokerConvergence` proves convergence for deletions that cover all
  orphans, the evident intention; `SharedDeletion` proves that the code as it stands covers them in every interleaving if and
  only if there is at most one.
* A CREATED notification that is replayed after a resync has already seen the broker registers a second proxy, unless some
  registration has the broker's plain name and none with that name would be taken over (`BrokerReplay.StaleCreateDuplicates`,
  in both directions). Such a second proxy survives every later resync, none of which converges, as long as SM wants the
  broker (`DuplicateProxies`). MODIFIED and DELETED notifications may be replayed freely.
* The mark before the URL in a takeover key, inside a name or a URL, gives the key to another broker as well, and only then
  (`Naming.BrokerKeyIsOwnIff`).
* A pipe in a scope, a broker name or a plan id gives the visibility's key to another access right as well, and only then
  (`Naming.VisibilityKeyIsUnshared`).
* A broker that is renamed into the blacklist or out of it, or created beside a platform broker of the same name but another
  URL, leaves the platform where a full resync would not.
* An update of a public visibility that changes no labels enables access for everyone and then disables it. When the last
  scope of a visibility is removed, the handler leaves the plan to nobody and a resync opens it to everyone. A label removed
  without naming its values stays (`VisibilityUpdates`).
* Two visibilities that grant the same right are told apart by a resync but not by the handlers: deleting one, or removing a
  scope from it, takes the right away although the other still grants it (`VisibilityTracking`, exact conditions).
* The ping period is the intended part of what SM allows if and only if the allowed period is at most the largest 64-bit
  integer divided by the percentage, whatever the size of the excess (`Producer.PingPeriodIsExact`), and then positive if and
  only if period times percentage is at least 100 ns.

## Model

| member | source | states |
|---|---|---|
| Naming.ProxyNameIdentifiesBroker | pkg/sbproxy/utils/helpers.go:30-36 | for ids of one length, two brokers get the same proxy name if and only if their ids and their platform names are the same |
| Naming.ProxyNamesCollideForUnequalIDs | pkg/sbproxy/utils/helpers.go:35 | for ids of different lengths two brokers get one proxy name if and only if the longer id is some text, a dash and the shorter id, and the platform name that goes with the shorter id is the other one followed by a dash and that text |
| Naming.ProxyNameInParts | pkg/sbproxy/utils/helpers.go:30-36 | a proxy name begins with the configured prefix, goes on with the platform name and a dash and ends with the id; a proxy path is the SM path, a slash and the id |
| Naming.BrokerIDRoundTrip | pkg/sbproxy/reconcile/reconcile_brokers.go:336-338 | reading the id back from a path built with it gives the id if and only if the id has no slash |
| Naming.ProxyPathIsProxyURL | pkg/sbproxy/reconcile/reconcile_brokers.go:42-53 | the URL given to a proxy is recognised as a proxy URL and leads back to the same broker |
| Naming.OldProxyURL | pkg/sbproxy/reconcile/reconcile_brokers.go:42-53 | a URL is recognised as that of a proxy if and only if it begins with the present path or is the old path, a slash and the id read from it |
| Naming.BrokerKeyIdentifiesBroker | pkg/sbproxy/reconcile/reconcile_brokers.go:340-342 | if no name contains the mark that precedes the URL, takeover keys are equal if and only if the names are and the URLs are up to slashes at the end |
| Naming.BrokerKeysCollide | pkg/sbproxy/reconcile/reconcile_brokers.go:340-342 | with the mark inside a name, two brokers of different names share a takeover key, whatever their ids and URLs |
| Naming.BrokerKeyIsOwnIff | pkg/sbproxy/reconcile/reconcile_brokers.go:340-342 | every broker with the takeover key of a given one has its name and, up to slashes at the end, its URL if and only if neither the name nor the URL of the given one holds the mark |
| Naming.SlashedProxyURLSharesKey | pkg/sbproxy/reconcile/reconcile_brokers.go:42-53 | a broker whose URL is an old proxy URL with a slash at its end is no proxy, yet has the takeover key of one |
| Naming.VisibilityKeyIdentifiesGrant | pkg/sbproxy/reconcile/reconcile_visibilities.go:239-247 | without a pipe in scopes and broker names, keys are equal if and only if the visibilities stand for the same access right; plan ids may contain anything |
| Naming.VisibilityKeysCollide | pkg/sbproxy/reconcile/reconcile_visibilities.go:239-247 | for all scopes, names and plans: a pipe in a scope makes its key that of another right, whose broker name takes over the rest of the scope |
| Naming.VisibilityKeyIsUnshared | pkg/sbproxy/reconcile/reconcile_visibilities.go:239-247 | the key of a visibility stands for its access right alone, among all visibilities, if and only if its scope, its broker name and its plan id hold no pipe |
| TaskPool.SchedulerInvariant | pkg/sbproxy/reconcile/task_scheduler.go:21-49 | at every point of every run: calls in progress <= tokens out <= the limit, and the wait group counts exactly the launched tasks that have not ended |
| TaskPool.WaitGroupMayExceedLimit | pkg/sbproxy/reconcile/task_scheduler.go:37-40 | a run in which the wait group is above the limit, because the token is given back first |
| TaskPool.AwaitReportsFailures | pkg/sbproxy/reconcile/task_scheduler.go:42-59 | Await returns only after every accepted task has ended; it reports the number of failed tasks modulo 2^32, so for fewer tasks it is silent if and only if none failed |
| TaskPool.RunShowsOnlyTaskEffects | pkg/sbproxy/reconcile/task_scheduler.go:29-49 | at every point of every interleaving the platform shows what was there or what a finished call wrote; if tasks with one key want one value, no effect is undone |
| TaskPool.Confluence | pkg/sbproxy/reconcile/task_scheduler.go:29-59 | every interleaving of agreeing tasks ends with the platform and the Await result that running them one after another gives |
| TaskPool.InOrderEffects | pkg/sbproxy/reconcile/task_scheduler.go:29-59 | running agreeing tasks in order gives each key the value its tasks want and touches no other key |
| PoolProgress.TasksRunTogether | pkg/sbproxy/reconcile/task_scheduler.go:21-49 | as many tasks as there are, up to the limit, can be inside their calls at once |
| PoolProgress.SomethingGoesOn | pkg/sbproxy/reconcile/task_scheduler.go:21-59 | no deadlock: at every point of every run before Await has reported, some step other than a cancellation is possible, unless the limit is 0 and nothing was cancelled |
| PoolProgress.RunsEnd | pkg/sbproxy/reconcile/task_scheduler.go:21-59 | every run, whatever the interleaving, has at most six steps for each task and two more |
| PoolProgress.AwaitIsReached | pkg/sbproxy/reconcile/task_scheduler.go:42-59 | from every point of every run some continuation without a further cancellation ends with the report of Await, under the same condition |
| World.Endpoints.GetBrokerByName | pkg/platform/broker_client.go:62-63 | finds a registration with the name, or answers that there is none, or fails |
| World.Endpoints.GetBrokers | pkg/platform/broker_client.go:59-60 | lists every registration exactly once, or fails |
| World.Endpoints.CreateBroker | pkg/platform/broker_client.go:65-66 | registers under an id that was not taken; a failing call may have done so too |
| World.Endpoints.GetVisibilities | pkg/sm/client.go:116-139 | answers the visibilities of the plans asked for, all of them if no plans are given, or fails |
| World.Endpoints.GetVisibilitiesByBrokers | pkg/platform/visibility_client.go:39-40 | lists exactly the rights it can express for these broker names, or fails |
| World.Endpoints.EnableAccessForPlan | pkg/platform/visibility_client.go:45-46 | adds the rights asked for; a failing call may have added some of them |
| World.Endpoints.DisableAccessForPlan | pkg/platform/visibility_client.go:48-49 | takes the rights away; a failing call may have taken some of them |
| World.Endpoints.PutCredentials | pkg/sm/client.go:172-213 | SM accepts, refuses with a conflict, or fails; the model does not say when |
| Visibilities.ConvertSMVisibility | pkg/sbproxy/reconcile/reconcile_visibilities.go:150-176 | one public visibility if it belongs to no platform or has no scope, else one visibility for each scope in order |
| Visibilities.ConvertedAllMeansDesiredAll | pkg/sbproxy/reconcile/reconcile_visibilities.go:126-148 | the converted visibilities stand for exactly the rights that SM grants for the plans, each in the form in which the platform lists rights |
| Visibilities.QueryIsOnlyAFilter | pkg/sbproxy/reconcile/reconcile_visibilities.go:118-148 | asking SM only for the visibilities of the known plans gives the same converted visibilities as asking for all |
| Visibilities.GetVisibilitiesFromSM | pkg/sbproxy/reconcile/reconcile_visibilities.go:118-148 | the converted visibilities of the known plans in SM order, with and without the query by plans |
| Visibilities.ConvertVisListToMap | pkg/sbproxy/reconcile/reconcile_visibilities.go:283-290 | the map has the keys of the list, each with the last visibility that has it |
| Visibilities.DiffByKey | pkg/sbproxy/reconcile/reconcile_visibilities.go:178-206 | what is to be disabled is each key that only the platform has, once; what is to be enabled has, for each key, as many entries as the SM list, less one if the platform has the key |
| Visibilities.DiffGrants | pkg/sbproxy/reconcile/reconcile_visibilities.go:178-206 | nothing that both sides have is disabled and nothing that SM does not want is enabled, whatever the keys; without a pipe in scopes and broker names the difference is exact |
| Visibilities.SecondDiff | pkg/sbproxy/reconcile/reconcile_visibilities.go:178-206 | once the platform reports what SM grants, a diff disables nothing and enables nothing new; it enables each key once less than SM lists it, so nothing at all if and only if SM lists no key twice |
| Visibilities.CanonicalRequest | pkg/sbproxy/reconcile/reconcile_visibilities.go:249-281 | the request made for a visibility is about exactly the one right it stands for |
| Visibilities.DeleteVisibilities | pkg/sbproxy/reconcile/reconcile_visibilities.go:209-222 | only obsolete rights go, all of them if it does not fail; each is asked for once, in some order and whatever fails, unless the context is found cancelled; it fails if and only if that happens or one of its calls failed |
| Visibilities.CreateVisibilities | pkg/sbproxy/reconcile/reconcile_visibilities.go:224-236 | only missing rights come, all of them if it does not fail; each is asked for once, in order and whatever fails, unless the context is found cancelled; it fails if and only if that happens or one of its calls failed |
| VisibilityResync.ReconcileServiceVisibilities | pkg/sbproxy/reconcile/reconcile_visibilities.go:178-206 | for any listings: what is called for is exactly the keyed difference of the two, only those requests have an effect; unless the context is found cancelled, every removal is asked for once whatever fails, and every addition once if no removal failed; no enable call follows a failed disable call; it fails if and only if the context is found cancelled or one of its calls failed |
| VisibilityResync.CanonicalPass | pkg/sbproxy/reconcile/reconcile_visibilities.go:178-206 | for listings in the form of the proxy: whatever fails, rights on both sides stay and only wanted ones come; without failure, and without a pipe in the scopes and names listed or wanted, exactly the difference is applied |
| VisibilityResync.ReconcilePlansVisibilities | pkg/sbproxy/reconcile/reconcile_visibilities.go:293-310 | the same for the brokers of one pass, exact if no pipe is in the scopes and names listed or wanted for these brokers; rights of all other brokers are untouched; it fails if and only if a listing failed, the context is found cancelled or one of its calls failed, and without the first two its calls are those for the difference |
| VisibilityResync.GetSMBrokerPlans | pkg/sbproxy/reconcile/reconcile_visibilities.go:72-101 | the join of plans, offerings and brokers; each entry has its own id and one of the given brokers |
| VisibilityResync.PlanIsJoinedIff | pkg/sbproxy/reconcile/reconcile_visibilities.go:72-116 | with distinct ids, a plan is joined to a broker if and only if SM lists the plan, the broker is among the given ones, and some offering of the broker has the plan |
| VisibilityResync.GetBrokerChunks | pkg/sbproxy/reconcile/reconcile_visibilities.go:334-348 | the chunks in order are the brokers in order, none is empty, all but the last are full |
| VisibilityResync.GetBrokersPlans | pkg/sbproxy/reconcile/reconcile_visibilities.go:322-332 | exactly the plans of the brokers of the chunk |
| VisibilityResync.ReconcileVisibilities | pkg/sbproxy/reconcile/reconcile_visibilities.go:30-48 | the brokers are cut into chunks, in order and without loss, and reconciled in one pass after another, with chunk size 0 in one pass; whatever happens in the others, a pass makes the calls for its own difference and fails if and only if one of these fails, unless it meets a failed listing or a cancellation itself; no more passes are excused in this way than there were such disturbances |
| VisibilityResync.ChunkIsolation | pkg/sbproxy/reconcile/reconcile_visibilities.go:38-47 | whatever the other chunks do or fail to do, each chunk ends where its own pass left it, converged if that pass succeeded and no pipe is in the scopes and names listed or wanted for the chunk; rights of brokers that SM does not list never change |
| VisibilityResync.ChainConverges | pkg/sbproxy/reconcile/reconcile_visibilities.go:30-48 | if no pass fails and no pipe is in the scopes and names listed or wanted for the brokers, what the platform lists for them is replaced by exactly what SM grants for them; rights of other brokers may hold anything |
| VisibilityResync.ChunkedEqualsUnchunked | pkg/sbproxy/reconcile/reconcile_visibilities.go:30-48 | any two ways to cut the brokers into chunks, one pass among them, end with the same rights on the platform if no pass fails and no pipe is in the scopes and names listed or wanted for the brokers |
| VisibilityRuns.SafeAtEveryPoint | pkg/sbproxy/reconcile/reconcile_visibilities.go:178-236 | at every point of every interleaving, whatever fails: rights on both sides are there, and no right appears that was neither there nor wanted |
| VisibilityRuns.NoEnableAfterFailure | pkg/sbproxy/reconcile/reconcile_visibilities.go:194-203 | if a disable call fails, no enable call of the batch is made |
| VisibilityRuns.EveryInterleavingConverges | pkg/sbproxy/reconcile/reconcile_visibilities.go:178-236 | every interleaving without a failure ends with the reported rights replaced by what SM wants |
| Indexing.IndexHoldsTheLast | pkg/sbproxy/reconcile/reconcile_brokers.go:344-353 | an index has the keys of the list, each with the last element that has it |
| Brokers.PlanBrokers | pkg/sbproxy/reconcile/reconcile_brokers.go:38-78 | the tasks scheduled for the desired brokers, in order, and the proxies left over: a proxy is used up by the first desired broker that claims it |
| Brokers.ResyncTakenOverBroker | pkg/sbproxy/reconcile/reconcile_brokers.go:101-117 | the catalog is only fetched if and only if the proxy already hosts the broker, with its name and a URL under the present path; else it is updated, and hosts it afterwards |
| Brokers.ResyncNotTakenOverBroker | pkg/sbproxy/reconcile/reconcile_brokers.go:80-99 | created if and only if there is no key match, updated at the match if takeover is enabled, nothing if and only if there is a match and takeover is disabled; afterwards the registration hosts the broker |
| Brokers.TaskFollowsPlatform | pkg/sbproxy/reconcile/reconcile_brokers.go:42-66 | what is planned for a broker in terms of what the platform lists: fetched if and only if the last listed of its proxies hosts it, created if and only if it has no proxy left and nothing is registered under its key, skipped if and only if something is but takeover is disabled |
| Brokers.PlannedTaskIsTouchable | pkg/sbproxy/reconcile/reconcile_brokers.go:56-66 | updates and fetches are only about brokers that a resync may touch, creations only about desired brokers |
| Brokers.OrphanIsTouchable | pkg/sbproxy/reconcile/reconcile_brokers.go:68-74 | deletions are only about proxies, each the last listed for its id, whose id is not desired |
| Brokers.BrokerFrame | pkg/sbproxy/reconcile/reconcile_brokers.go:38-117 | for any inputs, failures and interleaving, at every point: a platform broker that is no proxy and no key match of a desired broker not taken over yet is as before; with takeover disabled only proxies can change; of several proxies for one id only the last listed |
| BrokerConvergence.PlanIsPerBroker | pkg/sbproxy/reconcile/reconcile_brokers.go:56-66 | with distinct ids and takeover enabled each desired broker has exactly one task, made from its own proxy or key match |
| BrokerConvergence.ConvergedIffOnlyFetches | pkg/sbproxy/reconcile/reconcile_brokers.go:38-117 | a resync has nothing to update, create or delete if and only if the platform has converged |
| BrokerConvergence.TargetsAreDistinct | pkg/sbproxy/reconcile/reconcile_brokers.go:38-117 | the tasks of different desired brokers are about different registrations |
| BrokerConvergence.ResyncCallsAgree | pkg/sbproxy/reconcile/reconcile_brokers.go:38-117 | no two calls of a broker resync want different things of one registration, deletions included |
| BrokerConvergence.BrokerResyncConverges | pkg/sbproxy/reconcile/reconcile_brokers.go:38-117 | for every interleaving without a failing call: the proxies on the platform correspond one to one to the brokers of SM, orphans are gone, and a second resync has nothing to update, create or delete |
| SharedCapture.EveryTaskDeletesAnOrphan | pkg/sbproxy/reconcile/reconcile_brokers.go:68-74 | with the shared loop variable every task deletes some orphan, not necessarily its own |
| SharedCapture.SkippingRun | pkg/sbproxy/reconcile/reconcile_brokers.go:68-74 | for any number of orphans from two on and any pool size, a run that skips the first orphan |
| SharedCapture.SharedVariableIsExact | pkg/sbproxy/reconcile/reconcile_brokers.go:68-74 | in every interleaving each orphan is deleted once if and only if there is at most one orphan |
| SharedDeletion.ConvergesIffAllDeleted | pkg/sbproxy/reconcile/reconcile_brokers.go:38-78 | a broker resync in which every call succeeds converges if and only if its deletions cover every orphan |
| SharedDeletion.SharedLoopDeletesAllIff | pkg/sbproxy/reconcile/reconcile_brokers.go:68-74 | with the shared loop variable the deletions cover every orphan in all interleavings if and only if there is at most one orphan |
| SharedDeletion.SharedResyncConverges | pkg/sbproxy/reconcile/reconcile_brokers.go:38-78 | so with the shared variable a whole resync in which every call succeeds converges for at most one orphan, and else exactly in the interleavings in which the loop deleted all |
| DuplicateProxies.ConvergesIffOneProxyEach | pkg/sbproxy/reconcile/reconcile_brokers.go:38-78 | a broker resync in which every call succeeds and every orphan that it sees is deleted converges if and only if no two registrations were proxies of one broker |
| DuplicateProxies.ProxyOfDesiredStays | pkg/sbproxy/reconcile/reconcile_brokers.go:38-78 | every proxy of a broker that SM wants is still a proxy of it after the resync, also one that the index hides behind another |
| DuplicateProxies.DuplicateSurvivesResyncs | pkg/sbproxy/reconcile/reconcile_brokers.go:38-78 | two proxies of one broker survive any number of resyncs in which every call succeeds, as long as SM wants the broker, and none of these converges |
| Credentials.AttemptIsDisciplined | pkg/sbproxy/reconcile/reconcile_brokers.go:146-299 | one attempt to create, update or fetch keeps the order: accepted credentials, call, activation under the answered id |
| Credentials.InterleavingIsDisciplined | pkg/sbproxy/reconcile/reconcile_brokers.go:146-299 | however the attempts of a resync interleave, the whole log keeps the order |
| Credentials.DefaultsAreUsed | pkg/sbproxy/reconcile/reconcile_brokers.go:209-227 | without credentials of its own the proxy uses the configured user as the name and the configured password in every call, and activates nothing |
| Credentials.AcceptedOrEmpty | pkg/sbproxy/reconcile/reconcile_brokers.go:146-299 | with credentials of its own every call of a log that keeps the order carries what SM accepted earlier for that broker, or, after a conflict and never for a creation, an empty name and an empty password |
| Registrations.CreateBrokerRegistration | pkg/sbproxy/reconcile/reconcile_brokers.go:201-247 | registers the proxy name and path, nothing else; the calls are one attempt with forced credentials, ended by a conflict |
| Registrations.UpdateBrokerRegistration | pkg/sbproxy/reconcile/reconcile_brokers.go:249-299 | gives the registration the proxy name and path, nothing else; after a conflict the call goes on with empty credentials, which are not activated |
| Registrations.FetchBrokerCatalog | pkg/sbproxy/reconcile/reconcile_brokers.go:146-199 | changes no registration; one attempt that goes on after a conflict, or nothing if catalogs cannot be fetched |
| Registrations.DeleteBrokerRegistration | pkg/sbproxy/reconcile/reconcile_brokers.go:301-318 | one delete call for the registration, which is gone unless the call failed |
| Resync.AllowedKeepsTheRest | pkg/sbproxy/reconcile/reconcile_brokers.go:128-140 | exactly the blacklisted brokers are dropped |
| Resync.GetBrokersFromSM | pkg/sbproxy/reconcile/reconcile_brokers.go:119-144 | the brokers of SM without the blacklisted ones, in order |
| Resync.GetSMPlans | pkg/sbproxy/reconcile/resyncer.go:97-107 | the plans that lead to the given brokers, or an error |
| Resync.RunTask | pkg/sbproxy/reconcile/reconcile_brokers.go:80-117 | the task makes one attempt of its kind for its broker, or one call to delete, and fails only if a call of its own failed; it makes no call and fails if the context is found cancelled when it is scheduled |
| Resync.RunTasks | pkg/sbproxy/reconcile/reconcile_brokers.go:38-78 | each task makes its calls on what the earlier ones left, whatever fails; the log is that of every task, in order, but for those that were refused, exactly as many as times the context was found cancelled; all tasks succeed if none was refused and no call in the log failed |
| Resync.ReconcileBrokers | pkg/sbproxy/reconcile/reconcile_brokers.go:38-78 | brokers that may not be touched stay whatever fails; every planned task and every deletion is made whatever fails in the others, but for no more than as often as the context was found cancelled; if it never was and no call failed on a platform that was ready, the proxies are exactly the brokers of SM; the calls keep the order of credentials |
| Resync.SequentialConverges | pkg/sbproxy/reconcile/reconcile_brokers.go:38-117 | the tasks run in order without failure leave the proxies exactly as SM wants, with the ids that the platform gives out at run time |
| Resync.Process | pkg/sbproxy/reconcile/resyncer.go:62-95 | nothing at all happens if the platform cannot handle both or something needed cannot be listed, and only then; no call about a registration comes after the first about access; without the flag no right changes; the calls are those of every broker task and then of each chunk, but for no more tasks and chunks than there were cancellations and failed listings; without any of these and without a failing call the platform has come to the brokers of SM, if it was ready, and to the rights that SM grants, if no key is ambiguous; the calls keep the order of credentials |
| Resync.SMGrantsIff | pkg/sbproxy/reconcile/reconcile_visibilities.go:72-176 | with distinct ids, the rights that a resync wants are exactly those that some visibility of SM names, for everyone or by scope, on a plan that an offering of a broker not blacklisted has |
| Resync.VisibilitiesEstablished | pkg/sbproxy/reconcile/resyncer.go:91-94 | without a failing call and without a pipe in the scopes and names listed or wanted for the brokers of SM, what the platform lists for them is exactly what SM grants, for any chunk size, and the rest is as before; with distinct ids, a right is listed if and only if some visibility of SM grants it |
| Resync.ResyncEstablishesSM | pkg/sbproxy/reconcile/resyncer.go:62-95 | a whole resync without a failing call from a platform that is ready for it, without a pipe in the scopes and names listed or wanted for the brokers of SM, establishes the state of SM, brokers and rights, and another one would find no broker to change; with distinct ids, a right is listed if and only if some visibility of SM grants it |
| BrokerHandler.ChangeIsAnnounced | pkg/sbproxy/notifications/handlers/broker_handler.go:388-397 | a creation is announced if and only if the new details hold the broker with id, name and URL and valid additional data, a deletion likewise for the old details, a modification for both, the old broker from the old ones and the new from the new |
| BrokerHandler.DetermineBrokerNameToFind | pkg/sbproxy/notifications/handlers/broker_handler.go:408-413 | always the old name |
| BrokerHandler.OnCreate | pkg/sbproxy/notifications/handlers/broker_handler.go:97-211 | acts on exactly the payloads whose new details are complete and name no blacklisted broker; then looks for the plain name; registers a proxy, under the proxy name and path, if no broker has it; takes over the only one that has it if its URL is that of the broker and takeover is enabled; else makes no call and changes nothing; credentials are forced and a conflict ends it |
| BrokerHandler.OnUpdate | pkg/sbproxy/notifications/handlers/broker_handler.go:214-333 | acts on exactly the payloads whose old and new details are complete and whose old name is not blacklisted; then looks for the proxy name of the old broker, and if the only registration with it has the proxy URL, gives that one the name and path of the new broker in an update call, or, if the proxy name stays, has the catalog read in a fetch call and never updates; all others stay; a conflict ends it |
| BrokerHandler.OnDelete | pkg/sbproxy/notifications/handlers/broker_handler.go:336-386 | acts on exactly the payloads whose old details are complete and name no blacklisted broker; then deletes the only registration with the proxy name if it has the proxy URL, and nothing else |
| BrokerHandler.HandlerIsDisciplined | pkg/sbproxy/notifications/handlers/broker_handler.go:122-330 | every call of a handler carries credentials that SM has just accepted for that broker, with a name and a password, never the empty ones; activation follows success, under the answered id |
| BrokerReplay.GenuineStep | pkg/sbproxy/notifications/handlers/broker_handler.go:97-386 | handling a change never gives the proxy name of a broker to anything but a proxy of that broker |
| BrokerReplay.EffectOfModified | pkg/sbproxy/notifications/handlers/broker_handler.go:214-333 | of all registrations exactly the one with the old proxy name and the proxy URL gets the new name |
| BrokerReplay.EffectOfDeleted | pkg/sbproxy/notifications/handlers/broker_handler.go:336-386 | exactly the registration with the proxy name and the proxy URL goes |
| BrokerReplay.TracksIffConverged | pkg/sbproxy/reconcile/reconcile_brokers.go:38-117 | a platform whose proxies have present URLs has converged if and only if each broker of SM has one proxy under its name and there is no other |
| BrokerReplay.IncrementalAgreesWithFull | pkg/sbproxy/notifications/handlers/broker_handler.go:97-386 | after one change handled on a converged platform, a full resync only reads catalogs if and only if the change does not move the broker into or out of the blacklist, and a created broker finds no other broker of its name |
| BrokerReplay.ReplayFollows | pkg/sbproxy/notifications/handlers/broker_handler.go:97-386 | while the resync is ahead of the replay, blacklisted brokers or not, exactly the brokers that the resync gave a proxy or that were created since have one, under the name of that point in the history or the one the resync gave it |
| BrokerReplay.ReplayTracks | pkg/sbproxy/notifications/handlers/broker_handler.go:97-386 | from the point that the resync saw on, the platform has at every point of the replay exactly the proxies that SM wants then |
| BrokerReplay.StaleReplayConverges | pkg/sbproxy/notifications/handlers/broker_handler.go:97-386 | however far the resync, which established what SM wanted then, was ahead of the queue and whatever the renames, replaying the queue ends with exactly what SM wants in its last state; brokers may be blacklisted, as long as none moves into or out of the blacklist, and a creation is replayed on its existing proxy only if it is harmless |
| BrokerReplay.RenameThereAndBack | pkg/sbproxy/notifications/handlers/broker_handler.go:214-304 | a broker renamed there and back behind a resync: the replay is a stale one, and the proxy takes both names in turn and ends as it was |
| BrokerReplay.StaleCreateDuplicates | pkg/sbproxy/notifications/handlers/broker_handler.go:118-172 | on a platform that has the proxy already, every outcome of a replayed creation leaves one proxy for each broker if and only if some registration has the plain name of the broker and none with that name and its URL, other than its own proxy, is open to takeover |
| LabelChanges.LabelChangesToLabels | pkg/sbproxy/utils/helpers.go:10-26 | each key that is added to or removed from has all the values the changes carry for it, in order; no other key is there; a pair is to be added if and only if a change that adds carries it, to be removed if and only if one that removes does |
| LabelChanges.PairsAreCarried | pkg/sbproxy/utils/helpers.go:10-26 | a (key, value) pair is in the result if and only if some change carries it |
| VisibilityHandler.OnCreate | pkg/sbproxy/notifications/handlers/visibilities_handler.go:83-124 | acts on exactly the payloads whose new details are complete and name no blacklisted broker; enables, on the catalog plan, under the proxy name of the broker that the details name, one right for each label value or one for everyone; only if that and the lookup of that name fail are the brokers resynced, leaving rights alone, and the access enabled once more; the resync is started unless a listing failed, the context is found cancelled or the platform cannot handle both |
| VisibilityHandler.RetryAfterResync | pkg/sbproxy/notifications/handlers/visibilities_handler.go:117-122 | one resync of the brokers alone, with what it reports, and one more attempt to enable the access; the resync does nothing only if a listing failed or the platform cannot handle both, and otherwise makes every task, but for no more than as often as the context was found cancelled |
| VisibilityHandler.OnUpdate | pkg/sbproxy/notifications/handlers/visibilities_handler.go:127-187 | goes on with exactly the payloads whose old and new details are complete and whose old broker is not blacklisted; under the proxy name of the old broker, disables the old plan and enables the new one if the plan changed, stopping at a failure; then enables what is added, then disables what is removed, even if adding failed |
| VisibilityHandler.EnableServiceAccess | pkg/sbproxy/notifications/handlers/visibilities_handler.go:196-201 | a call if and only if there are labels and a platform id, or neither |
| VisibilityHandler.DisableServiceAccess | pkg/sbproxy/notifications/handlers/visibilities_handler.go:189-194 | a call if and only if there are labels and a platform id, or neither |
| VisibilityHandler.OnDelete | pkg/sbproxy/notifications/handlers/visibilities_handler.go:246-279 | acts on exactly the payloads whose old details are complete and name no blacklisted broker; one disable call, under the proxy name of that broker, for the old plan and labels |
| VisibilityHandler.CreateIsDisciplined | pkg/sbproxy/notifications/handlers/visibilities_handler.go:103-123 | a creation that resyncs in between keeps the order of credentials |
| VisibilityUpdates.ScopedUpdateAppliesChanges | pkg/sbproxy/notifications/handlers/visibilities_handler.go:160-201 | for a visibility of one platform, who sees the new plan are exactly the new label pairs if and only if the visibility is not moved without labels; no old pair is left on an old plan; nothing else changes |
| VisibilityUpdates.OnlyNamedPairsGo | pkg/sbproxy/notifications/handlers/visibilities_handler.go:160-201 | an update within one plan lets go exactly of the pairs that the changes name for removal; a label removed without values stays |
| VisibilityUpdates.PublicUpdateRevokes | pkg/sbproxy/notifications/handlers/visibilities_handler.go:180-201 | after an update of a public visibility everyone has access if and only if the changes remove labels and everyone is enabled or was; an update without label changes revokes the access |
| VisibilityUpdates.PairsAreDesiredIffOnlyScopes | pkg/sbproxy/reconcile/reconcile_visibilities.go:150-176 | the label pairs of a visibility are what a resync grants for it if and only if all its labels are scopes and there is one |
| VisibilityUpdates.CreationAgreesWithResync | pkg/sbproxy/notifications/handlers/visibilities_handler.go:103-123 | a created visibility is enabled for whom a resync would enable it if and only if it has no labels, or all its labels are scopes and there is one |
| VisibilityTracking.CreationKeepsTracking | pkg/sbproxy/notifications/handlers/visibilities_handler.go:83-124 | on a platform that shows what SM grants, a created visibility keeps it so if and only if it has no labels, or belongs to a platform and has a scope, or all that handler and resync would grant for it is granted by others |
| VisibilityTracking.UpdateKeepsTracking | pkg/sbproxy/notifications/handlers/visibilities_handler.go:127-201 | an updated visibility of one platform keeps it so if and only if no other visibility grants what the handler disables, and, if no scope is left, another one opens the plan to everyone or the visibility was moved with no label left |
| VisibilityTracking.AnyUpdateKeepsTracking | pkg/sbproxy/notifications/handlers/visibilities_handler.go:127-201 | any update within one broker, public or not, with scopes or without, keeps it so if and only if no other visibility grants what the handler disables, and others grant all that handler and resync disagree on for this visibility alone |
| VisibilityTracking.PublicUpdateLosesTrack | pkg/sbproxy/notifications/handlers/visibilities_handler.go:180-201 | an update of a public visibility that names no labels to remove never keeps it so |
| VisibilityTracking.DeletionKeepsTracking | pkg/sbproxy/notifications/handlers/visibilities_handler.go:246-279 | a deleted visibility keeps it so if and only if no other visibility grants what is disabled, and what a resync had granted for it is disabled or granted by another |
| Pipeline.NoUpdateIsLost | pkg/sbproxy/notifications/producer.go:157-263 | in every run and interleaving, until the program is told to stop: while the loop holds a valid revision, every single change up to it is consumed, queued or covered by a resync, unless that change is exposed: left to nobody when, since the last look at SM, an attempt failed after adopting a revision or a resync was given up |
| Pipeline.StepKeepsNothingLost | pkg/sbproxy/notifications/producer.go:157-263 | every single step of every actor keeps that invariant |
| Pipeline.SentIsSafe | pkg/sbproxy/notifications/producer.go:230-263 | every notification that was sent since the revision was last adopted and was not drained is safe in every run, whatever was given up and even after the program was told to stop |
| Pipeline.GivingUpExposes | pkg/sbproxy/reconcile/resyncer.go:68-87 | a resync that is given up exposes exactly the changes that no other resync on its way or finished covers, that are neither queued nor consumed, and that were drained or came before the present stretch |
| Pipeline.AdoptingExposes | pkg/sbproxy/notifications/producer.go:348-373 | at any point of any run, an attempt that adopts a revision and fails exposes exactly the changes up to it that no resync has seen or is on its way to see, that are neither queued nor handled nor consumed, and that were drained, came before the present stretch or had not been sent |
| Pipeline.ExposureHasCause | pkg/sbproxy/notifications/producer.go:157-263 | a change is exposed only if a resync was given up or such an attempt failed at an earlier point of the run, and at that point nobody took care of it |
| Pipeline.RunIsInStep | pkg/sbproxy/notifications/producer.go:230-263 | at every point the revision is that of the last notification put into the queue, except right after one went in, and the reader stands exactly behind it |
| Pipeline.ForwardingIsContiguous | pkg/sbproxy/notifications/producer.go:184-193 | over any number of reconnects within one stretch, what goes into the queue is exactly the next stretch of the log of SM: no gap, no repetition, in order |
| Pipeline.RunIsOrdered | pkg/sbproxy/reconcile/reconciler.go:65-100 | the queue is always the last of what was sent, in the same order |
| Pipeline.AdoptThenFailLosesUpdates | pkg/sbproxy/notifications/producer.go:348-373 | for every log of SM, a run in which a failed attempt adopts the last revision, the next one succeeds without a resync, and all changes are lost |
| Pipeline.GivenUpResyncLosesUpdates | pkg/sbproxy/reconcile/resyncer.go:68-87 | for every log of SM, a run in which the first resync is given up and all changes are lost |
| Pipeline.FirstMessageMayBeNotification | pkg/sbproxy/notifications/producer.go:111-117 | a run whose first message is a notification, although the comment says that it is a resync |
| Futures.ResyncIsFirstIffSettled | pkg/sbproxy/notifications/producer.go:111-228 | at any point of any run at which nothing was sent, every continuation sends a resync first, or nothing, if and only if the loop has stopped, or waits behind a resync request that the timer already has or will never take, or the queue has no room at all and the reconciler has stopped |
| Pipeline.ShutdownCanHang | pkg/sbproxy/notifications/producer.go:175-178 | a run after which the loop waits for a timer goroutine that has stopped |
| Pipeline.StuckForGood | pkg/sbproxy/notifications/producer.go:175-178 | no step of anyone ends that wait; nor the wait of a loop whose timer goroutine itself waits for room in a full queue that nobody empties any more |
| Futures.CanStopUnlessDoomed | pkg/sbproxy/notifications/producer.go:157-228 | at any point of any run after the program was told to stop, some continuation stops the connection loop, and some continuation stops it, the timer and the reconciler, if and only if the loop is not handing over a resync request to a timer goroutine that has stopped, or that waits on a full queue after the reconciler has stopped |
| Futures.ResyncFollowsIff | pkg/sbproxy/notifications/producer.go:205-228 | at any point of any run some continuation puts another resync into the queue if and only if the timer goroutine has not stopped and the queue has room or the reconciler has not stopped |
| Futures.EndConnection | pkg/sbproxy/notifications/producer.go:187-199 | at any point of any run with an open connection, whatever the queue and the reconciler are at, the pinger, the reader and the loop can end the connection |
| Producer.Validate | pkg/sbproxy/notifications/producer.go:75-92 | settings pass if and only if the durations are positive, the reconnect delay is not negative and the percentage is between 0 and 100; else the first setting that is out of range is named |
| Producer.OverflowThreshold | pkg/sbproxy/notifications/producer.go:369 | the product fits 64 bits if and only if the period is at most the largest integer divided by the percentage |
| Producer.PingPeriodIsShorter | pkg/sbproxy/notifications/producer.go:362-370 | up to the threshold the ping period is shorter than the allowed one, and positive if and only if period times percentage is at least 100 |
| Producer.PingPeriodIsExact | pkg/sbproxy/notifications/producer.go:369 | the ping period is the configured percentage of the allowed period if and only if the period is at most the largest integer divided by the percentage |
| Producer.PingPeriodIsWrongAboveThreshold | pkg/sbproxy/notifications/producer.go:369 | above the threshold, up to twice the range of the product, the ping period is not even positive |
| Producer.ReadTimeoutIsLonger | pkg/sbproxy/notifications/producer.go:370 | the read timeout is longer than the ping period if and only if their sum fits 64 bits, and then longer by exactly the pong timeout |
| Producer.Connector.ReadResponseHeaders | pkg/sbproxy/notifications/producer.go:348-373 | the revision is adopted if there was none and the header names a positive one, also when the ping period is then refused; the periods are set only on success |
| Producer.Connector.Connect | pkg/sbproxy/notifications/producer.go:287-346 | SM is asked from the revision held, if there is one; the revision is gone if and only if there is a client certificate and the dial is answered with status 410 and no connection; the attempt succeeds if and only if there is a connection, the ping period is there and not below the minimum, and a revision is held or the header names a positive one or none |
| Producer.Connector.Attempt | pkg/sbproxy/notifications/producer.go:163-178 | the same outcomes; 410 drops the revision, every other attempt without a connection keeps it; a resync is requested if and only if the attempt succeeded and there was no revision before it |
| Producer.AdoptsAndFailsIff | pkg/sbproxy/notifications/producer.go:348-373 | a failed attempt keeps a revision it has just adopted if and only if the header names one, there was none, and the ping period is missing, malformed or too short |
| Producer.AttemptIsStep | pkg/sbproxy/notifications/producer.go:163-178 | every attempt of the code is one step of the connection loop of the Pipeline, with the same revision, resync request and stream |
| Reconciler.Queue.Drain | pkg/sbproxy/reconcile/reconciler.go:89-100 | what is in the queue and what comes in while it is drained is discarded, all of it, and the queue is empty |
| Reconciler.Consume | pkg/sbproxy/notifications/consumer.go:30-62 | the handler of the resource and operation does its work, or nothing happens if there is none |
| Reconciler.WorkOff | pkg/sbproxy/reconcile/reconciler.go:72-84 | a resync takes the place of all messages behind it and of those that come in while it drains the queue; a notification is consumed alone; nothing is lost or reordered; a resync that does nothing had a failed listing, or the platform cannot handle both |
| Reconciler.Process | pkg/sbproxy/reconcile/reconciler.go:65-87 | however SM changes between messages and whatever arrives: every message that came in is, in order, consumed, a resync, discarded by one, or still queued; the platform goes from one handler or resync, with what SM held then, to the next; unless the loop itself finds the context cancelled, every round works off a message until those of the beginning are gone; every failed listing and cancellation belongs to one message or ends the loop; over all of them the order of credentials is kept |
| Reconciler.WorkIsSteps | pkg/sbproxy/reconcile/reconciler.go:65-100 | working off one message goes on, from any run of the Pipeline with a queue like this one, with steps of its reconciler that take the same messages; a resync that did not start is one that is given up, one that reports has seen all of SM |
| Reconciler.StaleQueueConverges | pkg/sbproxy/reconcile/reconciler.go:65-87 | a queue of broker notifications worked off without a failing call after a resync that was ahead of it ends with exactly the brokers that SM wants in its last state |
| EndToEnd.PlatformAgreesAtRest | pkg/sbproxy/reconcile/reconciler.go:65-100 | over any run, from any point at which a resync is on its way, for a log of broker and visibility changes and anything else: if no resync is given up, no attempt fails after adopting a revision and handlers and resyncs succeed, then whenever queue and reconciler are at rest and the notifications sent have caught up with the resyncs, the platform has exactly the proxies and the rights that SM wanted after the last entry sent |
| EndToEnd.PlatformAgreesWithSM | pkg/sbproxy/notifications/producer.go:157-263 | so whenever all of the log of SM has been sent and everything is at rest, the platform has exactly the proxies and the rights that SM wants now |
| EndToEnd.RestIsReached | pkg/sbproxy/notifications/producer.go:157-228 | for every log, every story that it tells and every way in which its entries can be handled one after another, a run that satisfies all of this, forwards the whole log, has each entry handled and comes to rest |
| VisibilityReplay.AgreeableEffect | pkg/sbproxy/notifications/handlers/visibilities_handler.go:83-279 | a created, updated or deleted visibility that satisfies its exact condition has on what the platform shows just the effect that the step of SM has on what SM grants |
| VisibilityReplay.ReplayGoesOn | pkg/sbproxy/notifications/handlers/visibilities_handler.go:83-279 | replaying visibility changes behind a resync: until the replay reaches what the resync had seen, each right is shown as at that point of the history or, if not touched, as the resync left it; from there on the platform shows what SM grants at each point |
| ResyncTracks.ResyncLeavesTracks | pkg/sbproxy/reconcile/reconcile_brokers.go:38-117 | from a ready platform with present proxy URLs and proxy names borne by their proxies only, a broker resync in which every call succeeds leaves such a platform again, with exactly the proxies that SM wants |
| ResyncTracks.RunLeavesTracks | pkg/sbproxy/reconcile/reconcile_brokers.go:38-117 | the same for every interleaving of the calls through the task pool |
| ResyncTracks.ResyncGoesWell | pkg/sbproxy/reconcile/resyncer.go:62-95 | what the end to end statement takes of a finished resync, proxies and rights, is what a whole resync without a failing call achieves |

## Left out

- HTTP, TLS, websockets, JSON and the parsing of headers: only their outcomes are in the model (success, status 410, another
  failure, a parsed value or none).
- Credential generation and hashing: a fresh pair of non-empty strings or an error; a hash is known by its password.
- When SM refuses credentials with a conflict, or its own rules for labels: not in this repository. The former is left open;
  the latter is the assumption `LabelsFollow`, which also says that removed labels name their values.
- The semantics of access requests on the platform: a request without labels is about everyone, one with labels about each
  label value; the repository leaves this to the platforms.
- A platform that lists a visibility with labels other than the scope, or a public one with labels: listings are taken to be in
  the form in which the proxy itself creates visibilities.
- SM changing during one resync: all its answers within one resync come from one state.
- A pattern of the old proxy URL with further percent signs: the pattern is the old path with the id appended.
- A name provider of the broker or visibility client that differs from that of the platform client: there is one.
- A notification's own id in its credentials, and caching of brokers on the platform: no effect on the modelled state.
- Real time and fairness: timers are steps that may happen at any moment, and no goroutine is promised its turn. That a
  scheduled job ends is proved (`PoolProgress`); for the loop, the timer and the reconciler only what can still happen is.
- Calls of a cancelled pass that are still running when the next one begins: a cancelled pass ends with its calls made or
  never made.
- A negative chunk size or queue size, which nothing validates: with a negative queue size making the channel panics, and
  with a negative chunk size the code panics when it cuts the first chunk.
- VisibilityResync.GetBrokerChunks: requires a positive chunk size unless there is no broker, because the first slice has a
  negative bound with a negative one, and the caller never passes 0.
- VisibilityResync.ReconcileVisibilities: requires, for the same reason, a chunk size that is not negative unless there is no
  broker; 0 means a single pass.
- Bootstrapping, the server, authentication, health, options, logging and correlation ids: wiring without effect on the state.
- Parallel execution inside `Resync`, `Registrations` and the visibility methods: they make their calls one after another.
  `TaskPool`, `VisibilityRuns` and `BrokerConvergence` prove on the step machine that the interleaving makes no difference.
- The 32-bit error counter inside the methods: they take any failure as reported. `TaskPool.AwaitReportsFailures` has the
  exact behaviour.
- World.Endpoints.GetVisibilitiesByBrokers: does not report visibilities with labels other than the scope, because the rights
  that such labels would stand for are up to each platform.
- Brokers.PlanBrokers: returns the proxies left over and leaves open which deletion reads which of them; `SharedCapture` and
  `SharedDeletion` model the shared loop variable.
- BrokerConvergence.BrokerResyncConverges: takes deletions that cover all orphans; what follows if they do not is in
  `SharedDeletion.ConvergesIffAllDeleted`.
- Resync.RunTasks: runs the tasks one after another; that any interleaving ends alike is proved in `TaskPool.Confluence` and
  `BrokerConvergence.ResyncCallsAgree`.
- Resync.ReconcileBrokers: deletes each orphan by its own task and runs the tasks in order; see `SharedDeletion` for the shared
  variable and `BrokerConvergence` for the interleavings.
- Pipeline.NoUpdateIsLost: takes a resync that looked at SM as covering what it saw although single platform calls in it may
  fail.
- Reconciler.Process: is bounded by a number of rounds, any number, in place of an endless loop, and SM does not change while
  one message is worked off; `Pipeline` lets SM change at every step.
- Reconciler.WorkIsSteps: has what a drain discards in the queue from the start; messages that come in during a drain are in
  `Reconciler.Queue.Drain` and, step by step, in `Pipeline`.
- BrokerReplay.StaleReplayConverges: is stated for replays whose calls succeed, without moves into or out of the blacklist
  and without ids that SM gives twice.
- VisibilityTracking.UpdateKeepsTracking: is stated for a visibility of one platform that had a scope;
  `VisibilityTracking.AnyUpdateKeepsTracking` has no such condition. A visibility that changes to another broker is not
  covered: the handler would keep the name of the old one.
- EndToEnd.PlatformAgreesAtRest: takes handlers that succeed, each entry meeting the condition of its handler, and resyncs
  that leave what SM wanted, which `ResyncTracks.ResyncGoesWell` proves of a resync without a failing call; and, as to rights,
  a catalog of plans and broker names that stays as it is, because how a platform moves rights when a registration is renamed
  is up to the platform.
- Pipeline.RunIsOrdered: with a queue without any room, a message that is handed over stays in the queue of the model for one
  step before the reconciler takes it, so the reconciler can stop in between; the channel would hand it over at once.
