# Consul Lambda: a verified model

Two programs let AWS Lambda functions take part in a Consul service mesh. The *registrator* reads
the tags of Lambda functions and keeps Consul in line with them: service defaults, catalog
registrations and, for functions that call into the mesh, mTLS data in a parameter store. The
*extension* runs beside a function, fetches that data, and proxies local connections to the mesh.
This project models both and proves what they keep in every run, whatever fails and however their
threads are scheduled.

Run `dafny verify dfyconfig.toml` in this directory.

## How it is organised

| file | contents |
|---|---|
| `Text.dfy`, `Structs.dfy` | results, runs and strings, and the naming that ties the programs together: upstream parser, SNI, parameter path |
| `Slots.dfy` | external stores as maps, and writes to them; when the order of writes is irrelevant |
| `Events.dfy` | from a function's tags to the events it calls for |
| `Consul.dfy` | the three stores, and what one reconciliation does to them when each request may be answered, refused or lost |
| `FullSync.dfy` | the loops that compare Lambda with Consul |
| `Invocation.dfy` | the registrator as an object with mutable state: each write, and a whole invocation |
| `Collection.dfy`, `Recovery.dfy`, `Agreement.dfy` | theorems about syncs: order, commit point, recovery, agreement of the two paths, undoing |
| `Effects.dfy`, `Outcomes.dfy` | from tags, event details and what can be read to the contents of the stores: the registrator without its inner definitions |
| `Overlap.dfy` | invocations that overlap, with every write a step of its own |
| `Listener.dfy`, `ListenerSafety.dfy`, `ListenerClosing.dfy`, `ListenerThreads.dfy` | the proxy listener as a machine of interleaved threads, its invariant, what `Close` achieves, and what single threads bring about |
| `Server.dfy` | the proxy server that starts and closes listeners, as a machine |
| `Extension.dfy`, `Dialing.dfy` | the cached data: one call after the other, and against concurrent dials |

## The main results

**Recovery** (`Agreement.InvocationsRecover`). Take any number of invocations, scheduled or caused by
AWS API calls, over unchanged functions; each may fail to read what it needs as long as no full sync
is given a listing that leaves some function out, and every write of every event may be refused or be
carried out without an answer. If every enabled service that was managed at the start had its
service defaults, one scheduled invocation that then returns without an error, or in which at least
every catalog write takes effect, leaves exactly the enabled names managed, each with service
defaults, and no service defaults for any name that was deregistered on the way. The same holds if the
writes of overlapping invocations come in any interleaving (`Overlap.OverlapRecovers`). This rests on the order of the writes: with the first two swapped in either
`Reconcile`, one lost write spoils a key (`Recovery.SwappingBreaks`). Parameters are as the last attempt
that reached them left them (`Recovery.ParameterPresent`).

**What full sync cannot repair.** `ListFunctions` drops the functions it fails to retrieve
(`consul-lambda/consul-lambda-registrator/lambda_client.go:65-69`). A sync over such a listing deletes an
enabled service, and if that stops after the first write the service stays managed without defaults,
though no function has changed (`Agreement.DroppedFunctionSpoils`). No later full sync touches it
(`Recovery.SyncsNeverRepair`). Over functions and listings that vary from one invocation to the next the
exact condition is `Agreement.SyncAfterAnything`: one sync whose catalog writes take effect gives every
enabled service its defaults if and only if the managed ones among them had theirs when it began.

**From tags to stores.** A full sync whose catalog writes take effect leaves a name managed exactly if the
tags of some listed function ask for it, with the arguments the tags give (`Outcomes.SyncOutcome`). It is
stopped by an invalid invocation mode and by reads that fail, and by nothing else (`Outcomes.SyncRuns`). An
invocation about one function that succeeds registers each of its names, or removes each if the
function is not enabled, in the catalog, the service defaults and the parameter store
(`Outcomes.RequestRegisters`, `Outcomes.RequestDeregisters`).

**Commit point** (`Recovery.CommitPoint`). The catalog write decides alone whether the next sync comes
back to a key. A failure after it is therefore never retried (`Agreement.StoreFailureNotRetried`).

**Order.** The wanted state is the same for every order of Go's map iteration exactly if no two
functions claim one name differently (`Collection.OrderIrrelevant`), and the events of one sync
can be carried out in any order (`Agreement.OrderIndependent`).

**Closing a listener.** No interleaving closes a channel twice, sends on a closed one, or makes the
wait group negative. One thing can panic: `Serve` counts a connection after the count has fallen to
zero under a `Close` that sleeps in `connWG.Wait`. `ListenerSafety.PanicsExactly` says which steps panic,
`ListenerClosing.PanicPossible` in which reachable states one can be taken, and
`ListenerClosing.ChannelSafety` that it takes a connection that was accepted and not yet counted when `Close`
shut the listener, or a listener that `Close` missed. `Close` can also get stuck: it waits for the
handlers while it holds the lock that a handler needs to report a failed dial. A waiting `Close` can
still return exactly if no handler is in that place (`ListenerClosing.CloseCanReturn`). With nothing more
to count nothing panics, and under every schedule either a dial in progress fails and its handler gets
to that place, or `Close` waits for a known number of handler steps (`ListenerClosing.DrainBound`). A
connection of which one copying goroutine has ended is closed at both ends, on an open listener too
(`ListenerThreads.EndedIsClosed`), and its error is reported unless it was being closed
(`ListenerThreads.CopyIsReported`).

**Names.** The parser yields exactly the services its format can express, two parsed upstreams have
one SNI exactly if they denote one service (`Structs.SniInjective`), and one parameter path serves
registrator and extension (`Agreement.OneParameter`).

**The cache.** A dial that gets through has all it uses from one fetch (`Dialing.ConsistentSnapshot`), and skipping the write when
nothing changed is as good as always writing (`Extension.SkipAgrees`, `Dialing.LatestIsCached`).

## How the systems are modelled

*Requests.* A write ends as `Applied`, `Refused` or `Unacknowledged`; the last took effect though the
caller saw an error. A registrator that is killed in the middle of a run is a run whose remaining
writes are all `Refused`. The answers of one reconciliation are a parameter, so every theorem holds
for all of them. Deleting a parameter that does not exist may be answered either way.

*Places.* A catalog entry lives in a datacenter, a partition and namespace, and on a node. Writes use
the datacenter of the event, and an empty one means the agent's own; the queries of a full sync and the
deletes built from the catalog name none. `Recovery.Settles` states exactly when carrying out an event
removes the disagreement: it writes where the sync reads, its partition and namespace are among
those enumerated, and, for a delete, no other node carries the managed tag for that name.

*Premises.* `Recovery.Proper`: partitions and namespaces have names; with Enterprise it follows from
`Agreement.Named`, and without it holds anyway (`Agreement.MetasProper`). `Recovery.OwnIds`:
on the registrator's node a managed service is registered under its own name; the registrator keeps
this (`Recovery.OthersKept`). `Collection.Agreeing`: no two functions ask for different things under one name.
`Agreement.LocalListing`: of the functions that are not passed over none names another datacenter, and the
enabled ones lie where the sync looks. Where a premise fails the consequences are stated:
`Collection.OrderIrrelevant` and `Recovery.CommitPoint` do not need the last two and say exactly what
happens without them.

*Full sync compares presence only.* Nothing here says that it refreshes the ARN or the invocation mode
of a function that is registered already. A listing may leave functions out, and a function that is
listed may fail to be retrieved for an AWS API event; the theorems that need complete listings say so
(`Agreement.Unchanging`).

*Map iteration* takes an arbitrary remaining element each time.

*Threads.* Listener, server and cache are state machines: a state has a program counter for each
thread, an action is one step of one thread, and a run is any sequence of enabled actions. Calls of
`Close`, connections and dials are unboundedly many. A step that makes Go panic sets a flag, does
nothing else, and is the last of its run. A wait group is its count and its sleepers: `Wait` that finds a
positive count falls asleep, the `Done` that brings the count to zero wakes it in a further step, `Add`
before that step panics, and so does `Wait` if the count is positive again when it wakes up. `Serve`
counts a connection and starts its handler in one step, taking `listenerLock` and using the field is
one step, and closing both ends of a connection is one step. A refresher that waits for the lock keeps
new dials from taking it. Which certificates and keys form a pair is a parameter, of which only is
known that empty texts do not. The class form is used where the code runs in one thread: the registrator, and the refresh of the cache.

*Upstreams* are values in a sequence that the cache updates by index, in place of shared pointers.

*Where code and comment differ.* The comment at
`consul-lambda/consul-lambda-extension/extension.go:159-161` says that dials wait for the first fetch. They do
while it is under way (`Dialing.WhenDialsWait`), but not always: `Dialing.DialsThatDoNotWait` says that a dial
gets the lock before any fetch has succeeded exactly if the first one has not begun, since the proxy
starts before the refresh (lines 97 and 102), or if the first one has failed, since the deferred calls
mark the data initialised and unlock on that path too (lines 164-170). Both happen:
`Dialing.EarlyDialHappens`, `Dialing.DialAfterFailureHappens`. Such a dial finds the empty initial data and
gives up at the check of its key pair (lines 272-275) instead of waiting. What the comment is about
does hold: nothing is dialled before a fetch has succeeded (`Dialing.NoDialBeforeFetch`).

## Model

| member | source | states |
|---|---|---|
| Text.Split | consul-lambda/structs/service.go:52 | The parts hold no separator and joined with it they give the string back; there is always a part. |
| Text.SplitJoin | consul-lambda/structs/service.go:63 | Splitting undoes joining for parts without the separator, so with `Split` it is a bijection. |
| Text.AtoiItoa | consul-lambda/structs/service.go:58 | Decimal notation of every 64-bit integer, signs included, is read back as that integer. |
| Text.AtoiBounds | consul-lambda/structs/service.go:58 | A plus sign is accepted, and integers beyond 64 bits are not. |
| Text.LeadingZero | consul-lambda/structs/service.go:58 | Leading zeros do not change the value. |
| Structs.ParseUpstream | consul-lambda/structs/service.go:47-81 | The field-by-field parser computes what `Parse` defines, both errors included. |
| Structs.ParserAccepts | consul-lambda/structs/service.go:52-60 | A string is accepted exactly if it is a colon-free name, a colon, a colon-free integer, and nothing or a colon and anything: described without splitting. |
| Structs.ParsePrint | consul-lambda/structs/service.go:47-81 | Every expressible service is read back from its printed form: name, namespace, partition, signed port, optional datacenter. |
| Structs.ParserImage | consul-lambda/structs/service.go:47-81 | A service results from some string if and only if it is expressible. |
| Structs.ParserRoundTrip | consul-lambda/structs/service.go:47-81 | Printing the parse of any accepted string and parsing that gives the same service. |
| Structs.UpstreamForms | consul-lambda/structs/service.go:51-80 | Names of one, two, three or more parts, with or without a datacenter and further fields, and the service each stands for: the partition of a two-part name is `default`, parts and fields after the third are ignored. |
| Structs.TwoPartName | consul-lambda/structs/service.go:63-70 | `name.namespace:port` is that name in that namespace of the default partition. |
| Structs.ParseErrors | consul-lambda/structs/service.go:52-60 | The format is invalid iff there is no colon; the port is iff there is one and the string is not well formed. |
| Structs.MetaNames | consul-lambda/structs/service.go:24-35 | A partition or namespace that is not given becomes `default` on its own; both missing give none. The path spells out partition, namespace, name. |
| Structs.SubsetFirst | consul-lambda/structs/service.go:92-100 | A subset goes in front of the SNI that the service has without it. |
| Structs.SniText | consul-lambda/structs/service.go:83-102 | The SNI letter by letter: `name.namespace.datacenter.internal.domain`, and `name.namespace.partition.datacenter.internal-v1.domain` outside the default partition. |
| Structs.SniDefaults | consul-lambda/structs/service.go:104-123 | Missing namespace and partition read as `default`, a missing datacenter as `dc1`. |
| Structs.SniParts | consul-lambda/structs/service.go:83-102 | An SNI reads name, namespace, then a tail with the datacenter, or partition and datacenter, and the trust domain. |
| Structs.SniTailInjective | consul-lambda/structs/service.go:88-101 | The tail determines partition and datacenter, although datacenters may hold dots and the two forms differ in length. |
| Structs.SniInjective | consul-lambda/structs/service.go:83-123 | Two accepted upstreams under one trust domain have equal SNIs if and only if name, namespace, partition and datacenter agree after defaults. |
| Structs.SubsetsCollide | consul-lambda/structs/service.go:90-94 | Outside the parser's image this fails: every non-empty subset with a non-empty name has the SNI of another service. The input is hypothetical, as nothing here sets a subset. |
| Structs.ComponentsArePrefix | consul-lambda/structs/service.go:148-150 | Closed by a slash, one string starts another if and only if the list of its parts between slashes starts the other's. |
| Structs.PathsMeet | consul-lambda/structs/service.go:148-150 | Services in two given partitions and namespaces can share a path if and only if, with partition and namespace taken apart at slashes, one list of directories begins with the other. |
| Structs.PathInjective | consul-lambda/structs/service.go:148-150 | With slash-free partition and namespace, equal paths mean the same partition, namespace and name, and conversely. |
| Structs.SlashedPathsCollide | consul-lambda/structs/service.go:148-150 | A concrete pair that shares a path when a partition holds a slash. |
| Events.AddAliases | consul-lambda/consul-lambda-registrator/trigger.go:190-208 | The alias loops yield the base event followed by one event for each alias, in order. |
| Events.GetLambdaEvents | consul-lambda/consul-lambda-registrator/trigger.go:113-212 | The tag-by-tag code computes what `LambdaEvents` defines, with its order of checks: foreign datacenter, invocation mode, Enterprise, partition. |
| Events.NamesAndArns | consul-lambda/consul-lambda-registrator/upsert_event.go:87-91 | Exactly the function itself and each alias are registered, the name ending in `-alias` and the ARN in `:alias` together. |
| Events.OneFunctionAgrees | consul-lambda/consul-lambda-registrator/trigger.go:174-211 | One function never asks for two different things under one key. |
| Events.EventShape | consul-lambda/consul-lambda-registrator/trigger.go:152-168 | Every event is an upsert iff the function is enabled, has the function's datacenter, metadata, payload flag and a valid invocation mode; metadata is present iff Enterprise, fully named, and in a configured partition. |
| Consul.ActiveRootIsFirst | consul-lambda/consul-lambda-registrator/upsert_event.go:148-155 | The root used is the first one with the active ID. |
| Consul.NoActiveRoot | consul-lambda/consul-lambda-registrator/upsert_event.go:156-158 | The step fails for want of a root exactly if none has the active ID. |
| Consul.RunCatalog | consul-lambda/consul-lambda-registrator/main.go:36-43 | The catalog after a run is its catalog writes alone, applied in order. |
| Consul.RunDefaults | consul-lambda/consul-lambda-registrator/main.go:36-43 | The service defaults after a run are its writes of defaults alone, applied in order. |
| Consul.RunParam | consul-lambda/consul-lambda-registrator/main.go:36-43 | The parameters after a run are its parameter writes alone, applied in order. |
| FullSync.AddEvents | consul-lambda/consul-lambda-registrator/trigger.go:264-286 | The nested map, seen flat, gains each event under its key, later ones replacing earlier ones. |
| FullSync.GetLambdas | consul-lambda/consul-lambda-registrator/trigger.go:243-290 | For some order of the functions the map is that order's; there is an error iff some function has one other than missing Enterprise. |
| FullSync.GetEnterpriseMetas | consul-lambda/consul-lambda-registrator/trigger.go:294-315 | All namespaces of all configured partitions, or the blank pair without Enterprise; fails iff a partition cannot be listed. |
| FullSync.FindManaged | consul-lambda/consul-lambda-registrator/trigger.go:335-342 | The loops over services and tags find exactly the services with the managed tag. |
| FullSync.ManagedNamesAreFound | consul-lambda/consul-lambda-registrator/trigger.go:329-342 | Tags merged over the instances of a service, as Consul reports them, show the managed tag iff one instance has it. |
| FullSync.GetConsulServices | consul-lambda/consul-lambda-registrator/trigger.go:318-346 | For each pair asked about, the names with an instance that carries the managed tag; fails iff a query fails. |
| FullSync.ConstructUpsertEvents | consul-lambda/consul-lambda-registrator/trigger.go:350-375 | One event for each wanted key that is enabled and not managed, or disabled and managed; none twice, in any iteration order. |
| FullSync.ConstructDeleteEvents | consul-lambda/consul-lambda-registrator/trigger.go:379-398 | One delete for each managed key no function claims, without a datacenter. |
| FullSync.DifferenceIsComplete | consul-lambda/consul-lambda-registrator/trigger.go:234-235 | The two loops together emit exactly one event per key of the symmetric difference of enabled and managed. |
| FullSync.FullSyncData | consul-lambda/consul-lambda-registrator/trigger.go:214-236 | Emits that difference for some visiting order; succeeds iff everything could be read and no function has an error other than missing Enterprise. |
| Collection.LastWins | consul-lambda/consul-lambda-registrator/trigger.go:274-284 | The function visited last decides about all its names. |
| Collection.OrderIrrelevant | consul-lambda/consul-lambda-registrator/trigger.go:253-287 | The map is the same for every visiting order if and only if functions that claim one name ask for the same. |
| Collection.AliasesClash | consul-lambda/consul-lambda-registrator/upsert_event.go:87-91 | A function with an alias and one called by the aliased name do not agree. |
| Collection.RejectedAddNothing | consul-lambda/consul-lambda-registrator/trigger.go:256-259 | Without Enterprise, leaving the functions with enterprise tags out of the listing changes nothing. |
| Invocation.AWSEventToEvents | consul-lambda/consul-lambda-registrator/trigger.go:73-103 | Which ARN an API event is about, and the events of that function, with all four kinds of errors; whether the call failed is not looked at. |
| Invocation.Registrator.StoreServiceDefaults | consul-lambda/consul-lambda-registrator/upsert_event.go:118-131 | One slot changes, in the event's datacenter, partition and namespace; success means an answer. |
| Invocation.Registrator.RegisterService | consul-lambda/consul-lambda-registrator/upsert_event.go:93-116 | One slot on the registrator's node holds the service with the managed tag. |
| Invocation.Registrator.UpsertTLSData | consul-lambda/consul-lambda-registrator/upsert_event.go:133-199 | The loop over the roots and the path built from a fresh service write one parameter; every failure leaves it alone. |
| Invocation.Registrator.ReconcileUpsert | consul-lambda/consul-lambda-registrator/upsert_event.go:67-84 | Defaults, catalog, parameter; each step only if the one before was answered; succeeds iff all did. |
| Invocation.Registrator.DeleteServiceDefaults | consul-lambda/consul-lambda-registrator/delete_event.go:52-55 | One slot is emptied; success means an answer. |
| Invocation.Registrator.DeregisterService | consul-lambda/consul-lambda-registrator/delete_event.go:43-50 | One slot on the registrator's node is emptied. |
| Invocation.Registrator.DeleteTLSData | consul-lambda/consul-lambda-registrator/delete_event.go:57-77 | One parameter is removed, under the path of a fresh service. |
| Invocation.Registrator.ReconcileDelete | consul-lambda/consul-lambda-registrator/delete_event.go:25-41 | Defaults, catalog, parameter, in the same order as an upsert. |
| Invocation.Registrator.Reconcile | consul-lambda/consul-lambda-registrator/main.go:50-53 | Either kind of event leads to the state `Step` describes and reports success accordingly. |
| Invocation.Registrator.GetEvents | consul-lambda/consul-lambda-registrator/main.go:55-89 | Dispatch by source: a full sync, the events of one function, none for a failed API call, or an error. |
| Invocation.Registrator.HandleRequest | consul-lambda/consul-lambda-registrator/main.go:19-48 | Every event is attempted whatever the others did; the new state is the run of these attempts; no error iff the events were got and all succeeded. |
| Recovery.ManagedSplits | consul-lambda/consul-lambda-registrator/trigger.go:318-346 | A key is managed iff its place is read and the registrator's node or another one carries the tag. |
| Recovery.EmitsCovers | consul-lambda/consul-lambda-registrator/trigger.go:350-398 | The emitted events with any answers are one attempt per pending key, whichever order they come in. |
| Recovery.OthersKept | consul-lambda/consul-lambda-registrator/upsert_event.go:93-116 | No run touches another node's entries or misnames one of its own. |
| Recovery.OwnAfter | consul-lambda/consul-lambda-registrator/delete_event.go:34-40 | After a run the node holds a key as its attempt says iff the catalog step took effect where the sync reads, else as before. |
| Recovery.KeyAfter | consul-lambda/consul-lambda-registrator/trigger.go:350-398 | A key is pending after a run iff it was before and no attempt has both committed and settled it. |
| Recovery.CommitPoint | consul-lambda/consul-lambda-registrator/upsert_event.go:76-83 | The pending keys are exactly the old ones minus those done; the count drops by one for each and never grows. |
| Recovery.QuietAfter | consul-lambda/consul-lambda-registrator/delete_event.go:34-40 | The next sync emits nothing if and only if every catalog step took effect and could settle its key. |
| Recovery.GovernedKept | consul-lambda/consul-lambda-registrator/main.go:36-43 | The premises of recovery survive every run. |
| Recovery.StepAt | consul-lambda/consul-lambda-registrator/upsert_event.go:67-84 | One attempt with any answers, seen from any key: what becomes of its registration and of its defaults. |
| Recovery.StepSound | consul-lambda/consul-lambda-registrator/delete_event.go:25-41 | One attempt with any answers keeps every key sound: no managed enabled key without defaults, no deregistered one with them. |
| Recovery.RunSound | consul-lambda/consul-lambda-registrator/main.go:36-43 | So does a run of any length, with any keys repeated. |
| Recovery.HistorySound | consul-lambda/consul-lambda-registrator/main.go:36-47 | So do any number of runs. |
| Recovery.CrashRecovery | consul-lambda/consul-lambda-registrator/upsert_event.go:67-84 | If the enabled names that are managed start with their defaults, then after any number of partly failing runs one sync whose catalog steps take effect leaves the enabled names managed with their defaults, and the deregistered ones without. |
| Recovery.SwappingBreaks | consul-lambda/consul-lambda-registrator/delete_event.go:25-41 | If the catalog were written before the defaults, a pending upsert without left-over defaults, or a pending delete with defaults to remove, would be spoiled by one refused defaults write. |
| Recovery.SyncLeavesManaged | consul-lambda/consul-lambda-registrator/trigger.go:350-375 | Whatever fails, a sync neither deregisters an enabled service nor touches the defaults of one that is managed. |
| Recovery.SyncRepairs | consul-lambda/consul-lambda-registrator/trigger.go:350-398 | From any state, a sync whose catalog steps take effect leaves exactly the enabled names managed; all of them have defaults iff the managed ones had. |
| Recovery.SyncsNeverRepair | consul-lambda/consul-lambda-registrator/trigger.go:357-360 | However many full syncs follow, an enabled managed service keeps, or keeps lacking, its defaults. |
| Recovery.ParameterAfter | consul-lambda/consul-lambda-registrator/upsert_event.go:198 | The last attempt whose third step took effect on a parameter decides: an upsert leaves its data, a delete nothing. |
| Recovery.ParameterPresent | consul-lambda/consul-lambda-registrator/delete_event.go:75-76 | A parameter is there after a run iff that attempt was an upsert, or there was none and it was there before. |
| Recovery.ChainIsOneRun | consul-lambda/consul-lambda-registrator/main.go:36-47 | Any number of runs end where all their attempts in one run would, so the same holds of them. |
| Agreement.CollectedKeyed | consul-lambda/consul-lambda-registrator/trigger.go:264-286 | Every entry lies under its own key, with metadata present iff Enterprise. |
| Agreement.ScheduledCovers | consul-lambda/consul-lambda-registrator/trigger.go:214-236 | What `FullSyncData` emits is one attempt per key of the difference, and the wanted map is one and the same for all orders. |
| Agreement.MetasProper | consul-lambda/consul-lambda-registrator/trigger.go:294-315 | Where partitions and namespaces have names, so have the pairs that are synced; without Enterprise it is the blank pair. |
| Agreement.LocalIsGoverned | consul-lambda/consul-lambda-registrator/trigger.go:129-168 | If the functions that are not passed over are local and lie where the sync looks, the premises of recovery hold of what they want. |
| Agreement.InvocationFaithful | consul-lambda/consul-lambda-registrator/main.go:55-89 | Invocations of every kind attempt only what the functions call for, unless a full sync is given an incomplete listing. |
| Agreement.InvocationsAreHistory | consul-lambda/consul-lambda-registrator/main.go:19-48 | Any sequence of invocations over unchanged functions and complete listings is a history to which recovery applies. |
| Agreement.SyncAfterAnything | consul-lambda/consul-lambda-registrator/main.go:19-48 | After any invocations, over functions, listings and namespaces that vary, a sync of its own listing repairs the enabled names iff every enabled managed key has defaults when it begins. |
| Agreement.DroppedFunctionSpoils | consul-lambda/consul-lambda-registrator/lambda_client.go:65-69 | Over unchanged functions, a listing that drops an enabled one and a refused request leave its service managed without defaults. |
| Agreement.InvocationsRecover | consul-lambda/consul-lambda-registrator/main.go:19-48 | After any mixture of partly failing invocations over unchanged functions and complete listings, one scheduled invocation whose catalog steps take effect, such as one without an error, repairs everything. |
| Agreement.OrderIndependent | consul-lambda/consul-lambda-registrator/trigger.go:234-235 | Any permutation of a sync's attempts yields the same catalog and defaults, and the same parameters if partitions and namespaces hold no slash. |
| Agreement.StoreFailureNotRetried | consul-lambda/consul-lambda-registrator/upsert_event.go:83 | If only the last step fails the key is no longer pending, and its parameter is as it was. |
| Agreement.WantsOwnEvent | consul-lambda/consul-lambda-registrator/trigger.go:264-286 | A sync that lists a function nobody challenges wants exactly the function's own events under its names. |
| Agreement.OwnAfterEvents | consul-lambda/consul-lambda-registrator/trigger.go:97-102 | A function's events, repeated or not, leave each of its names registered iff enabled, if they write at home. |
| Agreement.EventPathAgrees | consul-lambda/consul-lambda-registrator/trigger.go:73-103 | After the events of a function, a full sync emits an event for one of its names iff the name was pending and its event could not settle it. |
| Agreement.SwitchedServices | consul-lambda/consul-lambda-registrator/trigger.go:174-209 | Enabled and disabled, a function yields upserts and deletes of the same services, one by one. |
| Agreement.EnableThenDisable | consul-lambda/consul-lambda-registrator/delete_event.go:88-93 | Upserts, however they fare, and then successful deletes erase what the services held in all three stores; the state is restored iff it held nothing for them. |
| Agreement.OneParameter | consul-lambda/consul-lambda-extension/extension.go:176 | Upsert, matching delete, delete from the catalog alone, and an extension with the same settings use one parameter. |
| Overlap.AloneIsStep | consul-lambda/consul-lambda-registrator/upsert_event.go:67-84 | An event that nothing comes between does in its three writes what a whole `Reconcile` does. |
| Overlap.FlightsKept | consul-lambda/consul-lambda-registrator/delete_event.go:25-41 | An attempt past its first write finds that write done, whatever others have written meanwhile. |
| Overlap.InterleavingSound | consul-lambda/consul-lambda-registrator/main.go:36-43 | Every single write of any interleaving of invocations over one set of functions keeps every key sound. |
| Overlap.OverlapRecovers | consul-lambda/consul-lambda-registrator/main.go:19-48 | One full sync on its own, whose catalog steps take effect, repairs what overlapping invocations have left, wherever they were dropped. |
| Effects.AliasesAreListed | consul-lambda/consul-lambda-registrator/trigger.go:170-172 | The aliases are the elements of the tag between plus signs; without the tag there are none. |
| Effects.Verdicts | consul-lambda/consul-lambda-registrator/trigger.go:125-168 | By the tags alone: which functions are passed over, rejected and with what error, and which get events. |
| Effects.EventText | consul-lambda/consul-lambda-registrator/trigger.go:174-209 | By the tags alone: upsert iff enabled is `true`, and name, datacenter, namespace, partition, ARN, payload flag and mode of each event. |
| Effects.UpsertFound | consul-lambda/consul-lambda-registrator/trigger.go:190-195 | An enabled function has an upsert for its own name and for each alias, with the matching ARN. |
| Effects.UpsertStores | consul-lambda/consul-lambda-registrator/upsert_event.go:93-199 | An upsert that succeeds leaves the tagged entry, the arguments, and under the full path the leaf and the certificate of the first active root. |
| Effects.DeleteRemoves | consul-lambda/consul-lambda-registrator/delete_event.go:43-77 | A delete that succeeds leaves neither entry nor defaults nor parameter. |
| Effects.WritesTakeEffect | consul-lambda/consul-lambda-registrator/upsert_event.go:67-84 | A write that is reached and not refused takes effect even if its answer is lost. |
| Effects.FailuresStop | consul-lambda/consul-lambda-registrator/upsert_event.go:67-84 | A step without an answer is an error and keeps those behind it from changing anything; a refused one changes nothing; without roots, leaf or active root there is no parameter. |
| Effects.AnswersSuffice | consul-lambda/consul-lambda-registrator/upsert_event.go:67-84 | With every needed step answered the attempt succeeds. |
| Effects.OnlyItsOwn | consul-lambda/consul-lambda-registrator/upsert_event.go:212-221 | Nothing else in the three stores changes. |
| Effects.FunctionRegistered | consul-lambda/consul-lambda-registrator/main.go:36-43 | If all events of an enabled function succeed, each of its names is registered with its arguments and data, in its datacenter, namespace and partition. |
| Effects.FunctionGone | consul-lambda/consul-lambda-registrator/main.go:36-43 | If all events of a function that is not enabled succeed, none of its names is left in any store. |
| Outcomes.SyncRuns | consul-lambda/consul-lambda-registrator/trigger.go:214-261 | A full sync runs iff functions, namespaces and catalogs can be read and no listed function, unless passed over, has an invalid mode; enterprise tags do not stop it. |
| Outcomes.AnsweredExactly | consul-lambda/consul-lambda-registrator/main.go:55-89 | Exactly which invocations are answered: by source, error code, event name, ARN, retrieval and tags. |
| Outcomes.RequestErrors | consul-lambda/consul-lambda-registrator/trigger.go:82-93 | Which of its errors an API event gets: an unknown event name, an ARN that is not there, a function that cannot be retrieved. |
| Outcomes.NothingAttempted | consul-lambda/consul-lambda-registrator/main.go:28-32 | All others, and those about an API call that failed, attempt nothing and change nothing. |
| Outcomes.InvalidModeStops | consul-lambda/consul-lambda-registrator/trigger.go:143-150 | One listed function with an invalid mode keeps a full sync from doing anything. |
| Outcomes.RequestAttempts | consul-lambda/consul-lambda-registrator/trigger.go:76-97 | A create event is about the function created, a tag event about the resource, and that function's events are attempted. |
| Outcomes.RequestRegisters | consul-lambda/consul-lambda-registrator/main.go:19-48 | An invocation without an error about an enabled function registers each of its names in all three stores. |
| Outcomes.RequestDeregisters | consul-lambda/consul-lambda-registrator/main.go:19-48 | One about a function that is not enabled leaves nothing of it. |
| Outcomes.RequestAgrees | consul-lambda/consul-lambda-registrator/trigger.go:73-103 | After such an invocation a key of the function is pending for a full sync iff it was and its event could not settle it. |
| Outcomes.WantedKeys | consul-lambda/consul-lambda-registrator/trigger.go:253-287 | The enabled keys of a listing are what the tags of its functions ask for. |
| Outcomes.SyncOutcome | consul-lambda/consul-lambda-registrator/trigger.go:214-236 | After a sync whose catalog steps take effect a name is managed iff some function's tags ask for it; new names have the arguments the tags give, those that go lose their defaults. |
| ListenerSafety.InvKept | consul-lambda/proxy/listener.go:55-195 | The invariant over lock, flag, channels, wait group, socket and every handler is kept by every step of every thread. |
| ListenerSafety.PanicsExactly | consul-lambda/proxy/listener.go:73-82 | A step panics if and only if it is `Serve` counting a connection while a sleeping `Close` is about to be woken, or `Close` waking up to a positive count. In particular no channel is closed twice or sent on when closed. |
| ListenerSafety.MisuseNeedsUncounted | consul-lambda/proxy/listener.go:142-154 | Both need a connection left uncounted when `Close` shut the listener, or a listener it missed. |
| ListenerSafety.WinnerClose | consul-lambda/proxy/listener.go:133-140 | One call of `Close` does the work; the others get through only after it has returned. |
| ListenerSafety.HandlersHandler | consul-lambda/proxy/listener.go:92-107 | Handler steps keep the count equal to the unfinished handlers, and what each has open in line with where it is. |
| ListenerClosing.ChannelSafety | consul-lambda/proxy/listener.go:132-155 | In every reachable state the count is that of the unfinished handlers, so never negative, and if something has panicked it was a misuse of the wait group, with a connection uncounted or the listener missed. |
| ListenerClosing.PanicPossible | consul-lambda/proxy/listener.go:153-154 | The reachable states from which some step panics are exactly these two kinds. |
| ListenerClosing.AddPanics | consul-lambda/proxy/listener.go:81 | A run in which `Serve` panics in `connWG.Add`. |
| ListenerClosing.WaitPanics | consul-lambda/proxy/listener.go:154 | A run in which `Close` panics in `connWG.Wait`. |
| ListenerClosing.WaitEnds | consul-lambda/proxy/listener.go:153-154 | When the wait of `Close` ends every connection counted so far has closed both ends. |
| ListenerClosing.Conservation | consul-lambda/proxy/listener.go:132-155 | Any `Close` that has returned did so after the working one; all connections are closed but those counted after the listener was shut: at most the one `Serve` held then, unless the listener was missed. |
| ListenerClosing.MissedForever | consul-lambda/proxy/listener.go:143-145 | A listener that `Close` found unpublished is not closed in any later state of the run. |
| ListenerClosing.SocketAfterClose | consul-lambda/proxy/listener.go:59-68 | After `Close` has passed the listener the socket is open iff it was opened and missed, closed iff not missed. |
| ListenerClosing.LeakHappens | consul-lambda/proxy/listener.go:59-68 | A run in which `Close` returns between the check of the flag and the opening of the socket, which stays open. |
| ListenerClosing.LateHappens | consul-lambda/proxy/listener.go:73-82 | A run in which one accepted connection is counted only after `Close` has returned. |
| ListenerClosing.DoomedHappens | consul-lambda/proxy/listener.go:99-103 | A run in which `Close` waits for a handler that waits for the lock of `Close`. |
| ListenerClosing.DoomedForever | consul-lambda/proxy/listener.go:180-183 | From such a state on, in every run, `Close` does not return and the handler's connection stays open. |
| ListenerClosing.StuckStates | consul-lambda/proxy/listener.go:153-154 | While `Close` waits and nobody dials, it can go on or be woken, or a handler can step, or all unfinished handlers are doomed. |
| ListenerClosing.CloseCanReturn | consul-lambda/proxy/listener.go:132-155 | From a reachable waiting state some continuation lets `Close` return iff no handler wants its lock. |
| ListenerClosing.FinishPath | consul-lambda/proxy/listener.go:92-107 | Without doomed handlers a decreasing measure leads `Close` to its return. |
| ListenerClosing.DrainStep | consul-lambda/proxy/listener.go:92-129 | While a shut listener drains no step panics, handler steps lower the measure by one and no other step changes it, a dial that fails dooms its handler, and the wait ends only at a count of zero. |
| ListenerClosing.DoomedStays | consul-lambda/proxy/listener.go:180-183 | After such a failure the handler stays doomed under every schedule, and nothing panics. |
| ListenerClosing.DrainBound | consul-lambda/proxy/listener.go:153-154 | Under every schedule, dials in progress included, nothing panics, and unless a dial fails and dooms its handler, until `Close` is past its wait handler steps made and remaining add up to the same; while any remain some handler can step, and then `Close` can go on or be woken. |
| ListenerClosing.LeftForGood | consul-lambda/proxy/listener.go:153-155 | A `Close` past its wait stays past it, and nothing panics any more. |
| ListenerClosing.HushedKept | consul-lambda/proxy/conn.go:28-40 | A connection closed on purpose stays so, with no error under way, through every step of every thread. |
| ListenerClosing.ClosingIsSilent | consul-lambda/proxy/conn.go:60-63 | Once a connection is closed while it copies, its copier never reports an error. |
| ListenerThreads.EndedIsClosed | consul-lambda/proxy/conn.go:44-56 | Once either copying goroutine has ended the connection is closed at both ends and marked, whether or not the listener is. |
| ListenerThreads.ServeResult | consul-lambda/proxy/listener.go:72-79 | `Serve` returns nil only if it announced its listener and `Close` was called; before it returns its own `Close` has. |
| ListenerThreads.ServeLooks | consul-lambda/proxy/listener.go:74-78 | When `Accept` fails `Serve` returns nil iff the flag is set. |
| ListenerThreads.ServeReturnsNilHappens | consul-lambda/proxy/listener.go:72-79 | A run in which it does, after an ordinary `Close`. |
| ListenerThreads.ServeAfterClose | consul-lambda/proxy/listener.go:59-61 | A `Serve` that finds the flag set opens nothing and returns an error. |
| ListenerThreads.DialIsReported | consul-lambda/proxy/listener.go:99-103 | A dial that fails, if the lock is free, puts an error into the channel, unless it is full or the listener closing. |
| ListenerThreads.CopyIsReported | consul-lambda/proxy/listener.go:112-118 | So does a copy that fails, unless the connection was already being closed. |
| ListenerThreads.QuietEnd | consul-lambda/proxy/conn.go:56-63 | A copy that ends without an error reports none and tells the handler. |
| ListenerThreads.HandlerEnds | consul-lambda/proxy/listener.go:121-129 | The handler of a connection that has ended closes it and is no longer counted, with or without `Close`. |
| Server.InvKept | consul-lambda/proxy/proxy.go:45-132 | The server's invariant is kept by every step of `Serve`, its goroutines and any number of `Close` calls. |
| Server.ReadyMeansListening | consul-lambda/proxy/proxy.go:84-89 | `waitChan` is closed at most once, and only when every configured listener listens. |
| Server.ServeReturnsNil | consul-lambda/proxy/proxy.go:98-99 | When `Serve` returns nil every listener's `Close` has returned, iff `Close` did not overtake `Serve` or there are no listeners. |
| Server.OvertakenForever | consul-lambda/proxy/proxy.go:112-118 | After `Close` took the lock first, the server never closes a listener. |
| Server.CloseReturnsLast | consul-lambda/proxy/proxy.go:112-132 | Every `Close` returns after the working one, with `stopChan` closed and all listeners closed unless overtaken. |
| Server.OvertakenHappens | consul-lambda/proxy/proxy.go:46-54 | A run in which `Serve` returns nil with a listener nobody closes. |
| Server.ServeAfterClose | consul-lambda/proxy/proxy.go:46-48 | A `Serve` that finds the flag set starts no listener and returns an error. |
| Server.ReadyHappens | consul-lambda/proxy/proxy.go:84-89 | A run in which the server gets ready. |
| Server.ShutdownHappens | consul-lambda/proxy/proxy.go:112-132 | A run in which an ordinary `Close` closes the listener and `Serve` returns nil. |
| Server.FailureReturnsError | consul-lambda/proxy/proxy.go:96-97 | A listener's failure makes a serving `Serve` return an error. |
| Extension.SkipAgrees | consul-lambda/consul-lambda-extension/extension.go:192-204 | Compare-and-skip equals overwriting iff the data differ or the trust domains already match. |
| Extension.Extension.constructor | consul-lambda/consul-lambda-extension/extension.go:61-69 | The cache starts out empty and coherent. |
| Extension.Extension.ParseUpstreams | consul-lambda/consul-lambda-extension/extension.go:320-333 | The upstreams up to the first bad one, in order; fails iff there is a bad one; keeps the empty cache coherent. |
| Extension.Extension.GetExtensionData | consul-lambda/consul-lambda-extension/extension.go:155-207 | On success the cache is as if overwritten, on failure untouched; of the upstreams only the trust domains change. |
| Extension.Extension.RefreshExtensionData | consul-lambda/consul-lambda-extension/extension.go:110-136 | After any number of fetches the cache is as if overwritten with the latest that succeeded; the loop ends at the first failure. |
| Dialing.InvKept | consul-lambda/consul-lambda-extension/extension.go:155-207 | The invariant over lock, cache and every dial is kept by every step of the refresher and the dials. |
| Dialing.ConsistentSnapshot | consul-lambda/consul-lambda-extension/extension.go:262-284 | A dial that gets through has key, certificate, root and trust domain from one fetch, and certificate and key are a pair. |
| Dialing.NoDialBeforeFetch | consul-lambda/consul-lambda-extension/extension.go:272-284 | Nothing is dialled before a call has succeeded; a dial that found the initial data gives up; a dial gets through iff its key pair passes the check. |
| Dialing.CoherentUnlessWriting | consul-lambda/consul-lambda-extension/extension.go:200-203 | Whenever the refresher does not hold the lock every upstream has the trust domain of the cached data. |
| Dialing.LatestIsCached | consul-lambda/consul-lambda-extension/extension.go:192-206 | After every call that succeeds, in any interleaving, the cache is the latest fetch, skipped or not. |
| Dialing.NeverLocksTwice | consul-lambda/consul-lambda-extension/extension.go:159-171 | If the refresher cannot go on it does not hold the lock, and some dial that does can step. |
| Dialing.FirstFetchIsCached | consul-lambda/consul-lambda-extension/extension.go:193-206 | A run in which the first fetch, with any data, ends up in the cache and in every upstream. |
| Dialing.DialGetsThrough | consul-lambda/consul-lambda-extension/extension.go:262-284 | A run in which a dial then uses those data and gets through. |
| Dialing.FailureStops | consul-lambda/consul-lambda-extension/extension.go:115-119 | After any call that fails the refresher stops and the cache stays as it is. |
| Dialing.FailedFetchFails | consul-lambda/consul-lambda-extension/extension.go:177-190 | A call fails iff its data cannot be had or decoded. |
| Dialing.WhenDialsWait | consul-lambda/consul-lambda-extension/extension.go:159-197 | Before any call has ended the lock is held exactly once the first has begun; later only from the first write of a call to its end. |
| Dialing.DialsThatDoNotWait | consul-lambda/consul-lambda-extension/extension.go:159-171 | A dial that gets the lock does so before any call has succeeded iff the first has not begun or has failed, and then finds the initial data. |
| Dialing.DialAfterFailureHappens | consul-lambda/consul-lambda-extension/extension.go:162-184 | A run in which a dial gets the lock after the first fetch has failed, and gives up on the empty data. |
| Dialing.EarlyDialHappens | consul-lambda/consul-lambda-extension/extension.go:97-102 | A run in which a dial gets the lock before the first fetch begins, and gives up on the empty data. |

## Left out

- Recovery.CrashRecovery: does not promise parameters, because a parameter write that fails is not retried by a later sync (`Agreement.StoreFailureNotRetried`); which ones there are is `Recovery.ParameterPresent`. Nor does it speak about the arguments of a service that was registered from the start, because full sync does not look at them.
- ListenerClosing.Conservation: bounds the connections counted after `Close` only if `Close` found the listener; one it missed goes on accepting.
- Loading the environment, tokens and certificates, and the AWS and Consul clients: their answers are parameters.
- Decoding an AWS event into its fields, whose failure is one more error before anything is attempted.
- Requests that take effect only after a later request has been answered; and a function that changes between its listing and its retrieval.
- TLS, X.509, PEM and JSON: data that were fetched are either malformed or one value of `ExtensionData`.
- `reflect.DeepEqual` tells an absent list of peers from an empty one; here both are the empty sequence. Peers are never written by the registrator.
- The fixed parts of a config entry and a registration (kind, protocol, extension name, node metadata): service defaults are the arguments that vary.
- The SPIFFE identifier, which rests on URL escaping in a library and which only tests use.
- Cluster peering, the trace package, the parameter store's tiers, timers, signals, logging, example functions, acceptance tests and Terraform.
- The bytes that a connection copies: a copying thread just ends at some time, with an error or not.
- Listener: that closing sockets makes a copying thread end, and fair scheduling; results about progress say which steps remain and that they can be taken.
- Listener: between the last `Done` and the wake-up of `Close`, the check and the store inside `Done` are one step; a connection counted between them panics either way.
- Dialing: that a dial which waits for a writer gets the lock at the very moment that writer leaves; in the model the refresher may ask again first, so more runs happen.
- Server: what goes on inside a listener is in the listener's own machine; here its `Close` may return at any time after it was called. Connection errors that are only logged are left out.
- Aliasing of upstream pointers between the cache and the proxy's dial functions: a dial refers to its upstream by index.
- Removing a parameter, deregistering or deleting defaults of something that is not there: the answer is a choice, the state stays as it is.
