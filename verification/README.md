# Arupa kernel: a verified model

Arupa starts services, lets each of them register transports, HTTP routes and Socket.IO namespaces, and keeps its own
configuration in a TOML file. This project models the three stateful cores of the kernel and what holds them together,
in Dafny.

**Lifecycle.** `Supervisor.dfy` is the table of services: one method for every critical section of the supervisor's
mutex, each proved equal to a function on tables. `Protocol.dfy` puts these functions and the steps of the loader, of
the binding controller and of the cleanups into one state machine in which any number of starts, loads, stops, scans
and closes are in flight and interleave at every lock boundary. `Ownership.dfy` proves what holds in all its runs: an
instance has one holder until it is closed, once. `Orderly.dfy` is about runs in which Close never overtakes a start,
`Shutdown.dfy` about how runs end, and `Overtaken.dfy` about what a Close can lead to that does overtake one, exactly.
`Lifecycle.dfy` follows status, directory and discovery of one entry. `Leaks.dfy` shows what becomes of a service
whose name has white space around it. `Steps.dfy` spells out single steps for them. `Listing.dfy` is about the
instance under which a loaded service is listed. `ReadModel.dfy` is the registry of running services with its mirror
in the key-value store, under concurrent changes, and `Publication.dfy` what the registry says of one service while it
registers things.

**Control plane.** `Transports.dfy`, `Sockets.dfy`, `RouteRegistry.dfy` and `Services.dfy` are the objects with their
maps, `Controller.dfy` the controller that spans them. Their methods are proved equal to functions on the tables
(`Routing.dfy`, `ControlPlane.dfy`); there the invariants are proved, over every sequence of steps. `RouteLaws.dfy`
and `ControlLaws.dfy` say which declarations are admitted, which route answers and what a service is told, in the
terms of the declarations. `ControlHistory.dfy` and `ServiceRecords.dfy` hold the theorems about whole runs.
`Kernel.dfy` runs lifecycle and control plane together: a registered route never leads to an instance that has been
closed.

**Configuration.** `ConfigEditor.dfy` is the copy-on-write editor on the heap, with configurations that hold maps by
reference; it is proved to compute what `ConfigValues.dfy` computes on plain values and to write to no map that it has
not made itself. `ConfigMeaning.dfy` determines the result of an operation by what a reader finds in it.
`ConfigTransaction.dfy` and `ConfigStore.dfy` are LoadConfig, Reload and Update around it, for an arbitrary decoder
and document editor. `Pointer.dfy` is JSON Pointer (RFC 6901), `GroupIndex.dfy` the index of groups by user.

**Beside them.** `PathPatterns.dfy` has the language of access rules and the choice of the rule for a request,
`Usage.dfy` the rounding of byte counts, `Text.dfy` the string functions the others use.

Maps are visited in an arbitrary order wherever the program ranges over a Go map, so whatever is proved of a result
holds for every order.

Assumptions, all of them stated as hypotheses or parameters: text is ASCII; all changes of bindings go through the
controller; a service loaded by path has a trimmed name (`ProperRun`); a write of the configuration file that fails
leaves the file as it was; what the outside world answers (a directory can be read, a transport can be prepared, a
namespace can be created, a file can be written) is a parameter of the operation that asks.

Where the code does not do what one might expect, the model follows the code, a lemma shows it, and another one says
exactly when it happens:

- Close can make a start be refused, an entry keep the directory of another start, and a loaded service go missing from
  the read model: each iff it finds an entry that is Starting (`CloseCanRefuseIff`, `CloseCanMisplaceIff`,
  `CloseCanUnpublishIff`).
- Detach does not trim its owner as Attach does: it ends the session iff the name is trimmed (`DetachReleasesIff`), and
  every load under another name can leave a session behind for good (`UntrimmedLoadCanLeak`, `LeakBlocksEveryStart`).
- A service's record keeps ids as declared but is searched for trimmed ones (`RecordRestoredIff`,
  `TransportRecordRestoredIff`).
- The mirror of the read model goes wrong iff the last change to begin and the last to end differ (`AgreeIff`).
- A Stop that takes an instance before its start has published it can leave the next instance of that name listed as
  the one before, and no other Stop can (`CanMislistIff`).
- A registration can be lost from the read model while its service is being published, and a late addition or removal
  by another start of that name can replace the record (`CurrentIff`).
- A loaded configuration path can be reloaded iff it is not blank (`ReloadableIff`).
- A chosen route covers the path itself, unless it stands for the root alone and answers beside one that does not
  (`ChosenCoversIff`).
- A method that is no token prints as a different access rule (`ParseInvertsFormatIff`).

## Model

| member | source | states |
|---|---|---|
| `Supervisor.Supervisor.Scan` | internal/service/supervisor/supervisor.go:190-210 | the rebuilt table has exactly the found entries and those that are loaded or in transition, each with its current status frozen in |
| `Supervisor.Supervisor.BeginStartByName` | internal/service/supervisor/supervisor.go:254-292 | the name is trimmed; only a discovered, idle entry turns Starting and takes the directory, anything else is refused without a change |
| `Supervisor.Supervisor.BeginLoad` | internal/service/supervisor/supervisor.go:353-391 | an unknown name gets an entry; an entry that may not start is refused without a change |
| `Supervisor.Supervisor.FinishStartSuccess` | internal/service/supervisor/supervisor.go:435-459 | the instance is taken over iff the entry is still Starting; a vanished entry is left behind blank |
| `Supervisor.Supervisor.FinishStartFailure` | internal/service/supervisor/supervisor.go:461-469 | only an entry that is still Starting turns Failed |
| `Supervisor.Supervisor.BeginStop` | internal/service/supervisor/supervisor.go:299-334 | only a running or degraded entry gives its instance away, exactly once, and turns Stopping |
| `Supervisor.Supervisor.FinishStop` | internal/service/supervisor/supervisor.go:471-479 | only an entry that is still Stopping takes the final status |
| `Supervisor.Supervisor.BeginClose` | internal/service/supervisor/supervisor.go:514-537 | every loaded instance is taken, and none twice unless two entries hold it; loaded entries turn Stopping and Starting ones Failed |
| `Supervisor.ScanKeepsLiveEntries` | internal/service/supervisor/supervisor.go:190-210 | a scan keeps every entry that is loaded or in transition, with its instance, directory and status as clients see it |
| `Supervisor.ScanDropsExactly` | internal/service/supervisor/supervisor.go:190-210 | an entry disappears iff it was not found and is neither loaded nor in transition |
| `Supervisor.ScanKeepsEveryEntry` | internal/service/supervisor/supervisor.go:190-210 | every entry that stays keeps its instance, its directory and the status that clients see, idle ones and failures included; it is discovered iff it was found |
| `Supervisor.ScanFindsNew` | internal/service/supervisor/supervisor.go:172-179 | a name seen for the first time gets an entry iff it was found, idle and ready to be started |
| `Ownership.StepKeeps` | internal/service/supervisor/supervisor.go:166-539 | every step of every operation keeps the invariant that ties holders, sessions, tasks and statuses together |
| `Ownership.ExactlyOneHolder` | internal/service/supervisor/supervisor.go:254-539 | in every run and interleaving an attached instance has exactly one holder and no close, or none and exactly one close; it has a session, under its own name, exactly while its holder has not detached it |
| `Ownership.LoadedInOneEntry` | internal/service/supervisor/supervisor.go:514-530 | in every run no two entries hold one instance, so that Close takes each of them once |
| `Ownership.QuietMeansConsistent` | internal/service/supervisor/supervisor.go:254-539 | with nothing in flight the sessions are exactly the loaded services, every other instance has been closed once, and no entry is in transition |
| `Ownership.StatusHasACause` | internal/service/supervisor/supervisor.go:118-133 | an entry is running or degraded iff an instance is loaded, Stopping iff exactly one stop of it is in flight, Starting only if a start of it is |
| `Orderly.NoStartIsRefused` | internal/service/supervisor/supervisor.go:435-459 | if Close never finds an entry Starting, a start that comes to report is the only one of its name and is accepted |
| `Orderly.LoadedIsPublished` | internal/service/supervisor/supervisor.go:455-511 | if Close never finds an entry Starting, a loaded service is in the read model unless the start that loaded it has yet to publish |
| `Orderly.DirectoryIsTheLoadedOne` | internal/service/supervisor/supervisor.go:483-497 | if Close never finds an entry Starting, the directory kept for a loaded service is the one its instance was loaded with |
| `Orderly.AtRestIff` | internal/service/supervisor/supervisor.go:118-133 | no entry is Starting iff every start has reported |
| `Orderly.CloseOrder` | internal/service/supervisor/supervisor.go:514-530 | a Close that finds no entry Starting keeps what the three theorems above rest on |
| `Lifecycle.StatusAlwaysFollows` | internal/service/supervisor/supervisor.go:118-539 | in every run each step leads every entry from the status that clients see along one edge of the life of a service, and leaves all other entries where they are; a stop whose cleanup fails ends in Failed, any other in Discovered |
| `Lifecycle.DirectoryAlwaysFollows` | internal/service/supervisor/supervisor.go:254-539 | a directory comes with a start that begins and goes with a start that fails, a stop that ends or a Close that takes the instance |
| `Lifecycle.StoppableIff` | internal/service/supervisor/supervisor.go:299-334 | in every run a Stop takes an instance iff it is the one that the entry holds |
| `Lifecycle.StartableIff` | internal/service/supervisor/supervisor.go:135-137 | if Close never finds an entry Starting, a service can be loaded iff it is not loaded and no start or stop of it is under way; to be started by its name it has to be discovered besides |
| `Lifecycle.AnswersIff` | internal/service/supervisor/supervisor.go:254-391 | which refusal is given to whoever starts, loads or stops a service, by the status that is shown and whether it is discovered |
| `Lifecycle.DiscoveredIff` | internal/service/supervisor/supervisor.go:190-210 | a service is discovered iff the last scan found it, or a load of it has begun or a start of it was accepted since |
| `Lifecycle.IdleRemembersNothing` | internal/service/supervisor/supervisor.go:461-479 | if Close never finds an entry Starting, an entry at rest holds no instance and no directory |
| `Shutdown.NextAdvances` | internal/service/supervisor/supervisor.go:435-512 | in every state each operation in flight has a next step, which brings it closer to its end and moves no other operation |
| `Shutdown.OperationsCanComplete` | internal/service/supervisor/supervisor.go:254-512 | from every state the operations in flight can run to completion without any other step |
| `Shutdown.CloseLeavesNothingBehind` | internal/service/supervisor/supervisor.go:514-539 | after a Close at any moment of any run, once nothing is in flight and if no start began since, no session is left and every instance has been closed once |
| `Shutdown.CloseRefusesAStart` | internal/service/supervisor/supervisor.go:514-537 | a run with Close in which a start is refused although nothing failed |
| `Shutdown.CloseMixesUpDirectories` | internal/service/supervisor/supervisor.go:435-459 | a run with Close in which an entry keeps the directory of a later start than the one it loaded |
| `Shutdown.CloseUnpublishesALoadedService` | internal/service/supervisor/supervisor.go:499-512 | a run with Close that ends with a loaded service missing from the read model and nothing left that would publish it |
| `Overtaken.CloseCanRefuseIff` | internal/service/supervisor/supervisor.go:514-530 | after any such run, a Close can be continued to a refused start iff it finds an entry Starting |
| `Overtaken.CloseCanMisplaceIff` | internal/service/supervisor/supervisor.go:435-459 | it can be continued to a service that remembers another directory than its instance's iff it finds an entry Starting |
| `Overtaken.CloseCanUnpublishIff` | internal/service/supervisor/supervisor.go:499-512 | it can be continued to a loaded service that is missing from the read model, with its start gone, iff it finds an entry Starting |
| `Overtaken.MissedForGood` | internal/service/supervisor/supervisor.go:455-458 | a loaded service that is missing while no start is about to list it, and no callback that has already found it listed, stays missing until its instance is taken from the entry; not even a registration brings it back |
| `Listing.ListedAsItself` | internal/service/supervisor/supervisor.go:455-457 | if besides no Stop or Close takes an instance whose start has yet to publish it, a loaded service is listed under its own instance, or its own start has yet to list it |
| `Listing.QuietMeansListed` | internal/service/supervisor/supervisor.go:455-511 | in those runs, with nothing in flight, the read model lists exactly the loaded services, each under the instance it is loaded and attached as |
| `Listing.CanMislistIff` | internal/service/supervisor/supervisor.go:455-457 | after such a run a Stop, or a Close that finds no entry Starting, can be continued without another of them to a loaded service that is listed under another instance, with nobody about to list it, iff it takes an instance before that is published |
| `Leaks.UntrimmedLoadCanLeak` | internal/service/binding/controller.go:47-74 | every load by path under a name with white space can end with its instance closed and the session of the trimmed name still there, if that name was free |
| `Leaks.LeakBlocksEveryStart` | internal/service/binding/controller.go:57-59 | such a session lasts through whatever follows, and no service of that name is loaded or attached again |
| `Leaks.UntrimmedLoadLeaksItsSession` | internal/service/binding/controller.go:47-74 | the least such run from the start: nothing in flight, the session "a" and its closed instance |
| `ReadModel.AgreeIff` | internal/service/registry/registry.go:37-59 | in every interleaving the mirror shows an instance as the records have it iff the last change of it to begin and the last to end leave the same |
| `ReadModel.SerialChangesAgree` | internal/service/registry/registry.go:37-59 | so it does whenever no change of it is under way, if its changes do not overlap, whatever others do |
| `ReadModel.OvertakenAddStaysVisible` | internal/service/registry/registry.go:37-59 | a removal that overtakes an addition leaves the instance in the mirror and not in the records |
| `ReadModel.Registry.Republish` | internal/service/manager.go:72-77 | the callback lists a listed instance anew and leaves all others, listed or not, as they are |
| `Publication.CurrentIff` | internal/service/supervisor/supervisor.go:455-458 | once a start has returned and no registration is under way, the record listed is the service's current one iff the start took its snapshot after the last change and listed it after every other start's late addition or removal, or the controller's addition came after all of these |
| `Publication.RegistrationIsLost` | internal/service/manager.go:72-77 | whatever came before, a registration between the snapshot and the addition of the start is lost if the service is not listed yet |
| `Publication.AbsentIff` | internal/service/supervisor/supervisor.go:509 | once its start has published it, a service is unlisted iff a refused start has removed the record since the last addition |
| `Publication.NextChangeMakesUp` | internal/service/binding/controller.go:162-166 | once the start has returned, the next registration brings the record up to date, iff the record was not removed since the last addition |
| `Kernel.NoRouteToAClosedInstance` | internal/service/supervisor/supervisor.go:499-512 | in every run of lifecycle and bindings together, every registered route leads to an instance that is attached under the owner's name and has not been closed |
| `Kernel.NoTransportToAClosedInstance` | internal/service/supervisor/supervisor.go:499-512 | the same of every registered transport |
| `Kernel.NoNamespaceToAClosedInstance` | internal/service/socketio/bridge.go:294-299 | the same of every owned namespace |
| `Kernel.QuietRoutesAreLoaded` | internal/service/supervisor/supervisor.go:254-539 | with no operation in flight every route leads to the very instance that its owner has loaded |
| `Kernel.QuietTransportsAreLoaded` | internal/service/supervisor/supervisor.go:254-539 | the same of every registered transport |
| `Kernel.QuietNamespacesAreLoaded` | internal/service/supervisor/supervisor.go:254-539 | the same of every owned namespace |
| `Kernel.StoppedLeavesNothing` | internal/service/supervisor/supervisor.go:299-334 | a service that is not loaded, with no operation in flight, has no session, route, transport or namespace |
| `Kernel.RunCoupled` | internal/service/runner/loader.go:179-228 | the lifecycle's sessions are the controller's, instance by instance, at every step of load and cleanup |
| `Services.Instance.AddTransport` | internal/service/instance/instance.go:89-96 | the declaration is appended to the record, if there is one |
| `Services.Instance.RemoveTransport` | internal/service/instance/instance.go:98-110 | the first declaration with the id is spliced out, the others keep their order |
| `Services.Instance.AddRoute` | internal/service/instance/instance.go:112-119 | the declaration is appended to the record, if there is one |
| `Services.Instance.RemoveRoute` | internal/service/instance/instance.go:121-133 | the first declaration with the id is spliced out, the others keep their order |
| `Transports.Registry.Register` | internal/service/transport/registry.go:76-100 | a transport is prepared from the trimmed names or the reason is given; a prepared one is registered, or closed if its key is taken |
| `Transports.Registry.Unregister` | internal/service/transport/registry.go:102-115 | the transport at the trimmed id is removed and closed, anything else is an error without a change |
| `Transports.Registry.Lookup` | internal/service/transport/registry.go:117-122 | the transport at exactly that owner and id |
| `Transports.Registry.RemoveOwner` | internal/service/transport/registry.go:124-137 | exactly the owner's transports are removed, each closed once |
| `Sockets.Bridge.Register` | internal/service/socketio/bridge.go:50-76 | a namespace is taken iff it is named, connected, creatable and not owned |
| `Sockets.Bridge.Unregister` | internal/service/socketio/bridge.go:106-116 | the namespace is blanked iff the service owns it |
| `Sockets.Bridge.RemoveOwner` | internal/service/socketio/bridge.go:118-133 | exactly the service's namespaces are blanked |
| `Routing.OneKindOfCollision` | internal/service/route/registry.go:186-202 | in an admissible table every collision of a route is of one kind, so the order of the map does not decide which error is reported |
| `Routing.AddedKeeps` | internal/service/route/registry.go:100-205 | an admitted route keeps the tables in agreement, the namespaces with their routes and the policy on shared patterns |
| `Routing.RemovedKeeps` | internal/service/route/registry.go:279-291 | taking out one route keeps all of that |
| `Routing.OwnerRemovedKeeps` | internal/service/route/registry.go:266-277 | taking out an owner keeps all of that |
| `Routing.ReservedKeeps` | internal/service/route/registry.go:78-98 | reserving keeps all of that: no registered pattern is ever reserved, in whichever order the two are called |
| `Routing.NoneRefusedIff` | internal/service/route/registry.go:81-93 | there is no error iff nothing speaks against any of the patterns |
| `Routing.UnregisterUndoesRegister` | internal/service/route/registry.go:254-264 | a registration followed by its unregistration restores the tables, up to a namespace that nobody owns being on record |
| `Routing.OneRoutePerNamespace` | internal/service/socketio/bridge.go:64-133 | a namespace is owned by a service iff a Socket.IO route of that service names it, and no two routes name one namespace |
| `RouteRegistry.Registry.Reserve` | internal/service/route/registry.go:78-98 | all patterns are reserved iff each is valid, not reserved by another and not registered; otherwise none is, and the error is the first pattern's, whichever of its routes is met first |
| `RouteRegistry.Registry.Register` | internal/service/route/registry.go:100-146 | the route is bound to its transport and entered in both tables or its namespace taken, or the first reason against it is given and nothing has changed |
| `RouteRegistry.Registry.RegisterHTTP` | internal/service/route/registry.go:148-205 | the checks in the program's order, the method normalized, and the conflict independent of the order of the map |
| `RouteRegistry.Registry.Unregister` | internal/service/route/registry.go:254-264 | the route at the trimmed id leaves every table it is in |
| `RouteRegistry.Registry.RemoveOwner` | internal/service/route/registry.go:266-277 | exactly the owner's routes and namespaces go, in whatever order they are visited |
| `RouteRegistry.Registry.UsesTransport` | internal/service/route/registry.go:293-302 | true iff some route of the owner names the transport |
| `RouteRegistry.Registry.MatchHTTP` | internal/service/route/registry.go:322-359 | the answer is at the longest pattern that covers the path: the route of the method, else the one for every method, else exactly the sorted methods there |
| `RouteRegistry.AnswerIsUnique` | internal/service/route/registry.go:322-359 | only one answer meets that description, whatever the order of the map |
| `RouteRegistry.OneServiceAnswers` | internal/service/route/registry.go:186-202 | all routes at the chosen pattern are of one owner, and a route for every method is alone there |
| `RouteRegistry.ChosenCoversIff` | internal/service/route/registry.go:325-347 | the chosen route covers the path under its own root mode iff its pattern is not "/", or the path is, or it stands for the whole tree |
| `RouteRegistry.RootRoutesMix` | internal/service/route/registry.go:325-347 | the exception occurs in admissible tables: beside a proxy at "/", a plain route for another method answers for every path |
| `RouteLaws.RunsAreSound` | internal/service/route/registry.go:148-185 | in every reachable state a route has a transport of a kind that can serve it, a valid pattern, a normalized method, no location rewrite without a prefix rewrite; a static route is for GET or all methods and ends in a slash iff it is a directory; a Socket.IO route has a namespace and a connected service |
| `RouteLaws.AcceptedIff` | internal/service/route/registry.go:100-205 | a declaration is accepted iff it is complete, its transport is there, its id is new, the route is sound and it may share its pattern, or has its namespace to itself |
| `RouteLaws.FirstReason` | internal/service/route/registry.go:100-205 | a route is refused with an error iff that reason holds and none that comes before it does |
| `RouteLaws.RegisteredAsDeclared` | internal/service/route/registry.go:100-205 | an accepted route is stored as it was declared, under trimmed names and with a normalized method, and nothing else changes |
| `RouteLaws.ReservableIff` | internal/service/route/registry.go:78-98 | a pattern can be reserved iff it is valid, nobody else has reserved it and no route is there |
| `RouteLaws.ReservationHolds` | internal/service/route/registry.go:78-98 | after a reservation its owner can repeat it and nobody else can reserve the pattern |
| `RouteLaws.SameMethodIff` | internal/service/route/registry.go:470-472 | two methods are the same to the registry iff they differ in surrounding white space and in the case of letters only |
| `RouteLaws.CoversIff` | internal/service/route/registry.go:325-333 | a route is for its own path and, if it ends in a slash, for what is below; at "/" a proxy or a static directory is for the whole tree and any other for the root alone |
| `RouteLaws.NoRouteIff` | internal/service/route/registry.go:325-336 | a request is answered by nobody iff no route is for its path |
| `RouteLaws.ChosenIsMostSpecific` | internal/service/route/registry.go:322-359 | the chosen route is for the method or for all, and the pattern of any other route for the path is a beginning of its own |
| `RouteLaws.ExactRouteWins` | internal/service/route/registry.go:322-359 | a route at the very path and for the method answers, whatever else is registered |
| `RouteLaws.AnswerIff` | internal/service/route/registry.go:337-357 | at the most specific pattern the route for the method answers, else the one for all methods, else none |
| `RouteLaws.AllowedIff` | internal/service/route/registry.go:337-359 | the methods named to a client whose own is not allowed are exactly those for which the path would be answered |
| `ControlPlane.StepKeeps` | internal/service/binding/controller.go:47-160 | every operation of the controller keeps the joint invariant of sessions, transports and routes |
| `ControlPlane.NothingDangles` | internal/service/binding/controller.go:68-160 | in every reachable state each route's owner has a session and its transport is the very object registered; transports and namespaces lead to the session's instance |
| `ControlPlane.TablesAlwaysAgree` | internal/service/route/registry.go:121-205 | in every reachable state the two tables of HTTP routes are one to one, namespaces agree with routes and the policy on patterns holds |
| `Controllers.Controller.Attach` | internal/service/binding/controller.go:47-64 | one session per trimmed, non-empty owner, or an error and no change |
| `Controllers.Controller.Detach` | internal/service/binding/controller.go:66-74 | routes, then transports, then the session of exactly that owner string are gone |
| `Controllers.Controller.RegisterTransport` | internal/service/binding/controller.go:76-91 | the new transport is registered for the session's instance and listed in its record; on any error nothing but a duplicate's closing remains |
| `Controllers.Controller.UnregisterTransport` | internal/service/binding/controller.go:93-109 | refused while a route uses the transport; otherwise it leaves registry and record |
| `Controllers.Controller.RegisterRoutes` | internal/service/binding/controller.go:111-138 | each declaration is judged in the state its predecessors leave; the ids are split in order into registered and failed; degraded iff one failed |
| `Controllers.Controller.UnregisterRoutes` | internal/service/binding/controller.go:140-160 | the same for removals, which never degrade |
| `Controllers.BatchIsSplit` | internal/service/binding/controller.go:121-132 | every declaration of a batch is among the registered or among the failures, once |
| `Controllers.NoFailuresIff` | internal/service/binding/controller.go:121-135 | there is a failure, and so a degraded result, iff one declaration was refused |
| `Controllers.RegistrationsAreARun` | internal/service/binding/controller.go:111-138 | a batch is a run of single registrations, so what holds over runs holds through it |
| `ControlLaws.UnpreparedIff` | internal/service/transport/registry.go:76-164 | a transport is refused for want of an owner, then of an id, then because it leads nowhere: to no connected service, to no files, to no server, or of an unknown type |
| `ControlLaws.RunsAreUsable` | internal/service/transport/registry.go:139-164 | in every reachable state a registered transport is of a known type, has a connection if it needs one, and is a directory only if it is static |
| `ControlLaws.TransportRegisteredIff` | internal/service/binding/controller.go:76-91 | a registration adds the declared transport and no other iff it has an id, leads somewhere and the id is new |
| `ControlLaws.BatchInOrder` | internal/service/binding/controller.go:121-132 | successes and failures come in the order of the batch, each failure with its own reason |
| `ControlLaws.BatchDegradesIff` | internal/service/binding/controller.go:121-138 | after a batch its service is degraded iff it was before or a declaration was refused, and it is published once, at the end |
| `ControlLaws.DegradedIff` | internal/service/binding/controller.go:133-135 | in every run an instance is degraded iff it was attached so or a batch through its session has failed in part since |
| `ControlLaws.PublishedFollows` | internal/service/binding/controller.go:76-166 | an instance is published exactly when its transports have changed and when a batch of its routes has ended |
| `ControlLaws.UnregisteredIff` | internal/service/binding/controller.go:140-160 | a removal succeeds iff the trimmed id names a route of the service, and that route is all that goes |
| `ControlHistory.DetachRemovesExactly` | internal/service/binding/controller.go:66-74 | routes, transports and the session of the owner are removed, every other owner's are untouched |
| `ControlHistory.DetachReleasesExactly` | internal/service/route/registry.go:266-291 | the same for patterns in the HTTP index and for namespaces |
| `ControlHistory.DetachReleasesIff` | internal/service/binding/controller.go:47-74 | a detach by the name of the attach ends the session iff that name is trimmed, and changes nothing otherwise |
| `ControlHistory.ChosenRouteIsLive` | internal/service/route/registry.go:304-320 | a route chosen for a request has a live session and a transport that is still registered |
| `ControlHistory.NamespaceLiveIff` | internal/service/socketio/bridge.go:294-299 | an event in a namespace has someone to be delivered to iff a registered route of a connected, attached service names the namespace |
| `ControlHistory.Recipient` | internal/service/socketio/bridge.go:294-299 | the bridge's lookup finds someone iff such a route exists, and then names that route and the instance that its owner is attached as |
| `ControlHistory.TransportsAreAccountedFor` | internal/service/transport/registry.go:76-137 | in every run each prepared transport is either registered or has been closed, exactly once |
| `ControlHistory.DetachedIsSilent` | internal/service/binding/controller.go:162-166 | an instance without a session is never published again unless it is attached again |
| `ServiceRecords.RecordsAreExact` | internal/service/instance/instance.go:89-133 | with trimmed ids, each attached service's record lists exactly the routes and transports the registries hold for it, once each, in the order of registration |
| `ServiceRecords.RecordRestoredIff` | internal/service/binding/controller.go:131-156 | registering and unregistering a route by the same id restores the record iff the id is trimmed |
| `ServiceRecords.TransportRecordRestoredIff` | internal/service/binding/controller.go:88-106 | the same of a transport |
| `PathPatterns.ScanToken` | internal/netx/path.go:92-106 | true iff the value is a non-empty token of upper-case token characters (section 5.6.2 of RFC 9110) |
| `PathPatterns.TokenCharIff` | internal/netx/path.go:92-120 | a method may consist of the visible characters that are no delimiters and no lower-case letters (section 5.6.2 of RFC 9110) |
| `PathPatterns.MatchMeaning` | internal/netx/path.go:139-150 | other than "/", a pattern covers itself and, if it ends in "/", every path that it begins, whatever the root mode |
| `PathPatterns.MatchesOfOneLength` | internal/netx/path.go:139-150 | two patterns of one length that match one path are equal, whatever their root modes |
| `PathPatterns.ParseIffKey` | internal/netx/path.go:19-42 | the accepted keys are exactly the printed forms of the valid rules, one to one |
| `PathPatterns.ParseInjective` | internal/netx/path.go:19-42 | no two keys are the same rule |
| `PathPatterns.FormatInvertsParse` | internal/netx/path.go:44-63 | every valid key is formatted back from its parts |
| `PathPatterns.ParseInvertsFormatIff` | internal/netx/path.go:44-63 | what was formatted reads back as what was asked for iff the trimmed method is empty or a token |
| `PathPatterns.FormatMixesUpMethodAndPath` | internal/netx/path.go:58-62 | a whole family of methods that are no tokens and format as rules for another method and path |
| `PathPatterns.MatchRouteAccess` | internal/auth/middleware.go:70-92 | a rule is found iff one applies, and it is the best in path length and then method rank |
| `PathPatterns.BestIsUnique` | internal/auth/middleware.go:70-92 | there is only one best rule, whatever the order of the map |
| `PathPatterns.AppliesIff` | internal/netx/path.go:66-90 | a rule applies iff it is for the method, for all or, being for GET, for HEAD, and its path is the request's or ends in a slash and begins it, "/" standing for the root alone |
| `PathPatterns.BestIsMostSpecific` | internal/auth/middleware.go:70-92 | the path of every other rule that applies is a beginning of the best one's |
| `PathPatterns.BestHasItsMethod` | internal/netx/path.go:75-86 | of the rules for one path that for the very method is taken, else for HEAD that for GET, else the one for all |
| `ConfigValues.SetAcceptedIff` | internal/conf/update.go:237-718 | a Set is accepted iff the loader accepts the key, its dynamic segments are not empty and the value is of the kind that belongs there |
| `ConfigValues.RemoveAcceptedIff` | internal/conf/update.go:237-718 | a Remove is accepted on the same paths, and below a service that is not configured |
| `ConfigValues.SetThenRead` | internal/conf/update.go:237-718 | what was set is found at its path |
| `ConfigValues.RemoveThenRead` | internal/conf/update.go:237-718 | what was removed reads as never set |
| `ConfigValues.ElsewhereUnchanged` | internal/conf/update.go:237-718 | an operation changes nothing outside its path |
| `ConfigMeaning.ApplyIff` | internal/conf/update.go:237-718 | the result of an accepted operation is the one configuration that reads as asked at the path, as before at every path apart, and whose maps on the way gain or lose at most the key that the path names |
| `ConfigMeaning.ResultIsUnique` | internal/conf/update.go:237-718 | there is only one such configuration, nil and empty maps told apart |
| `ConfigMeaning.RemovingNothing` | internal/conf/update.go:572-630 | to remove what is not there changes nothing, and neither does any removal below a service that is not configured |
| `ConfigMeaning.UnknownIsRefused` | internal/conf/update.go:237-718 | an operation that is neither a Set nor a Remove is refused on every path |
| `ConfigEditor.Editor.constructor` | internal/conf/update.go:219-235 | the editor starts out sharing every map with the configuration and owning none |
| `ConfigEditor.Editor.Apply` | internal/conf/update.go:237-267 | the edited configuration reads as the operation on values, or the operation fails where that does; nothing is written but the editor and maps it has made, and no list but the configuration's own and new ones is kept |
| `ConfigEditor.EditStrings` | internal/conf/update.go:378-417 | one operation on a map of strings, copied first unless owned; nil and empty are kept apart and no map of the caller is kept |
| `ConfigEditor.EditSlices` | internal/conf/update.go:419-458 | the same for a map of lists; every list in it was in the map before or is new, so no list of the caller is kept |
| `ConfigEditor.Editor.ApplyServiceField` | internal/conf/update.go:572-630 | an operation below one service, on a copy of the services |
| `ConfigEditor.Editor.ApplyParams` | internal/conf/update.go:632-677 | an operation on a service's parameters, which have an owner of their own |
| `ConfigEditor.Editor.EnsureServices` | internal/conf/update.go:720-768 | the services become the editor's own without changing what they read as |
| `ConfigEditor.CloneServices` | internal/conf/update.go:770-779 | a copy that reads the same and shares no map and no list |
| `ConfigEditor.CloneService` | internal/conf/services.go:85-99 | a copy that reads the same and shares no map and no list |
| `GroupIndex.IndexGroupsByUser` | internal/conf/conf.go:109-129 | group g is listed under user u iff g lists u, every list sorted without duplicates |
| `GroupIndex.ReverseIsUnique` | internal/conf/conf.go:109-129 | there is only one such index, whatever the order of the map |
| `GroupIndex.LessIff` | internal/conf/conf.go:125-127 | the order of the lists is that of the first byte that differs, a beginning coming before what it begins |
| `ConfigStore.Store.Update` | internal/conf/update.go:97-159 | all operations or none: file and live configuration are what the transaction comes to, or exactly what they were; no earlier map is written to, and no map or list taken over but the live configuration's own |
| `ConfigStore.Store.ApplyRequests` | internal/conf/update.go:121-138 | the editor's loop computes the fold of the operations over the decoded file, with the document edited alongside |
| `ConfigStore.Store.Reload` | internal/conf/conf.go:84-102 | the live configuration becomes what the file decodes to, or stays |
| `ConfigStore.Store.LoadConfig` | internal/conf/conf.go:40-80 | path, file and configuration after a load, with the path restored on failure and a missing file created empty |
| `ConfigStore.Store.Publish` | internal/conf/conf.go:104-107 | the index by user is the reverse of the groups just published |
| `ConfigTransaction.UpdateIsTheOperations` | internal/conf/update.go:97-159 | after a successful update the file decodes to the live configuration, which is the operations applied in order to the file as it was; other files are untouched |
| `ConfigTransaction.EditsAreOperations` | internal/conf/update.go:121-138 | the outcome of the edits is the fold of the decoded operations, whatever the document editor does |
| `ConfigTransaction.EditsSucceedIff` | internal/conf/update.go:121-138 | the edits succeed iff every pointer can be read, none sets a nil map or list, and configuration and document both go through the operations; then these are the result |
| `ConfigTransaction.UpdatesIff` | internal/conf/update.go:97-159 | an update succeeds, and leaves exactly the operations' configuration and the edited document, iff the file can be read, decoded and parsed, the operations go through, the result is valid and reads back, and a file that differs can be written |
| `ConfigTransaction.UpdatesCompose` | internal/conf/update.go:97-159 | two updates in a row come to the operations of both on the first file |
| `ConfigTransaction.LiveIsWhatIsOnDisk` | internal/conf/conf.go:40-169 | through any sequence of loads, reloads and updates, failing or not, the live configuration is what its file decodes to |
| `ConfigTransaction.LoadBringsIntoStep` | internal/conf/conf.go:40-80 | a successful load establishes that |
| `ConfigTransaction.BlankPathIsADeadEnd` | internal/conf/conf.go:131-142 | a blank path loads iff its file can be created anew, and then neither Reload nor Update succeeds |
| `ConfigTransaction.ReloadableIff` | internal/conf/conf.go:84-102 | a path that was loaded can be reloaded iff its file can be read and the path is not blank |
| `ConfigTransaction.UpdatableIff` | internal/conf/update.go:97-159 | and it can be updated iff besides the operations come to something valid that reads back, and that is what the file says already or can be written |
| `ConfigTransaction.ReloadsIff` | internal/conf/conf.go:84-102 | a reload succeeds iff the file is there under a name that is not blank, can be read and decoded, and it changes nothing but the live configuration |
| `ConfigTransaction.LoadableIff` | internal/conf/conf.go:40-80 | a path can be loaded iff its file is there under a name that is not blank, can be read and decoded, or can be created |
| `ConfigTransaction.LoadLeaves` | internal/conf/conf.go:40-80 | what a load leaves of the files, and that one that fails leaves path and live configuration as they were |
| `Pointer.JoinPath` | internal/conf/update.go:82-92 | replacing '~' and then '/' escapes every character once |
| `Pointer.ParsePointer` | internal/conf/update.go:184-217 | the scanner computes splitting and unescaping, and fails exactly where they do |
| `Pointer.ParseInvertsJoin` | internal/conf/update.go:82-92 | every non-empty list of segments is read back (sections 3 and 4 of RFC 6901) |
| `Pointer.JoinInvertsParse` | internal/conf/update.go:184-217 | every accepted pointer is printed back |
| `Pointer.AcceptedIff` | internal/conf/update.go:184-217 | exactly the non-empty pointers of the grammar are accepted |
| `Pointer.UnescapesInOrder` | internal/conf/update.go:184-217 | a segment is unescaped as by replacing "~1" by '/' and then "~0" by '~' (section 4 of RFC 6901) |
| `Usage.ProperUnitHelper` | internal/system/usage.go:104-114 | quotient and tenth make up the byte count in tenths of the unit, rounded half up, and no 64-bit value overflows |
| `Usage.ProperUnit` | internal/system/usage.go:117-128 | the unit is the largest the count reaches |
| `Usage.NearestTenth` | internal/system/usage.go:104-114 | no other number of tenths is nearer, and of two that are as near the larger is taken |
| `Usage.UnitsStep` | internal/system/usage.go:117-126 | every unit is 1024 of the one before |
| `Usage.ShownAs1024Iff` | internal/system/usage.go:107-111 | a count shows as 1024.0 of its unit iff it is within half a tenth of the next unit |

## Left out

- Listing.QuietMeansListed: equality of the read model with the loaded services is claimed for the runs named there only; of runs with a Close that overtakes a start, `Overtaken` says what can be missing. What a record says is followed for one service at a time, in `Publication`.
- Who marks an instance degraded: the lifecycle marks one at any time and the controller marks one after a failed batch, but `Kernel` does not tie the two marks together.
- Close cleans up one instance after another and waits; the protocol lets these cleanups interleave with everything else, which includes the real order.
- Entries of the supervisor are values in its table; no pointer to an entry survives a release of the lock in the program. StartConfigured, the listing calls, service info and catalog publication, and dispatch of service messages are not modelled.
- A static service whose session cannot be attached is not closed by the loader; only attached instances are counted.
- The loader's work between attaching and returning (packages, processes, brokers, gRPC, WASM, checksums) is a step that succeeds or fails; the transports and routes that it registers are the control plane's steps.
- The elements of a list of strings are never written in place, neither by the program nor in the model; a caller that writes into a list it has handed over is not modelled.
- ConfigEditor.Editor.Apply: after a failed operation the editor is not promised to be usable again, because applyParams claims a map before it is written back; Update throws the editor away.
- ConfigStore.Store.Update: the getters that hand out copies of the live configuration, and concurrent readers, are not modelled.
- TOML decoding, the document editor, validation of values, file replacement and reading are uninterpreted functions or parameters.
- ReadModel.Registry.Republish: a record that cannot be encoded as JSON would not reach the mirror; encoding is taken to succeed.
- Socket.IO event delivery, middleware, access policies, request and response rewriting, resolution of static sources, proxy construction, login sessions, HTTP handlers, logging and the command line.
- Texts of error messages; only which error, or that there is one, is modelled.
