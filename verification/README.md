# A verified model of the OCF device and bridge library

The library connects OCF clients and bridged devices to each other and to the cloud. This
project models its state machines and small algorithms in Dafny and proves what they keep.
The network is an oracle: the answer to a request, the result of a dial, the moment a
connection breaks and the order in which goroutines run are all chosen freely, so each
theorem holds for every failure pattern and every interleaving.

| file | what it models |
|---|---|
| `EventLoop.dfy`, `EventLoopProtocol.dfy` | the lock-free event loop: the copy-on-write handler list and its filter by sorting and binary search; every interleaving of `Add`, `RemoveByChannels` and `Run` |
| `ConnectionPool.dfy`, `DialOutcomes.dfy`, `OneConnection.dfy` | the pool of connections per address: wrappers with a semaphore and a final dial error, and their removal under a second lock; when an address has at most one live connection |
| `CloudManager.dfy` | the registration with the cloud: serial handlers, with close callbacks and calls of the API between any two of their statements |
| `UnpublishQuery.dfy` | the query of an unpublish request |
| `OwnDevice.dfy` | taking ownership of a device, with the reset after a failure |
| `DevicesObserver.dfy` | the presence observer with its counters of missed polls |
| `ThingDescription.dfy` | the notifier for thing descriptions, which keeps only the last one |
| `IncrementalChanges.dfy` | packing ETags into queries, with the decoder of a receiver |
| `KeyUsage.dfy` | key usages as an ASN.1 bit string |
| `Endpoints.dfy`, `Runs.dfy` | merging endpoints by two stable sorts; runs of equal marks in a linear order, of which only the first element is kept |
| `DeviceCache.dfy` | the cache of devices, permanent entries, and moving an entry to a new ID |
| `Credentials.dfy` | the credential store, its free IDs, export and import |
| `Strings.dfy`, `Wrappers.dfy` | splitting strings; the type of optional values |

The concurrent parts are step machines (`EventLoopProtocol`, `ConnectionPool`,
`ThingDescription`): a state, an action per atomic operation, `Can` and `Do`, and `Exec` for
runs of any length by any number of goroutines. The sequential parts are classes and methods
with the fields, loops and branches of the source, tied to functions about which the
properties are proved.

Seven properties one might expect do not hold; each has a lemma that shows it and one with the
exact condition:

- A healthy connection can be dropped from the pool: `removeConn` does not check that the
  wrapper it was called for is dead (`ConnectionPool.RemoveDropsALiveConnection`).
- An address can have more than one live connection. It happens exactly through steps that
  take a wrapper out of the map that is still used (`OneConnection.OneConnectionUnlessOrphaned`,
  `OneConnection.TwoArePossibleExactlyIf`). There are two ways: a connected wrapper is dropped
  (`ConnectionPool.TwoLiveConnectionsToOneAddress`), or a wrapper whose connection died is
  dropped while a caller of `Dial` has loaded it and dials it again
  (`OneConnection.TwoLiveWithoutDroppingOne`).
- `add` of the credential store never returns once 0, the largest and the smallest int are
  all taken (`Credentials.NeverReturnsExactlyIf`).
- A permanent device does not stay permanent when its links show another ID
  (`DeviceCache.RelinkKeepsPermanenceExactlyIf`).
- `mergeEndpoints` is not associative (`Endpoints.MergeIsNotAssociative`,
  `Endpoints.MergeAssociatesExactlyIf`).
- A cloud manager without a cloud URL is not always UNINITIALIZED. In every run it is exactly
  as long as no status was set after the configuration, and always if no call has cleared the
  URL during a handler (`CloudManager.Manager.AnyRun`); a handler whose connect succeeds leaves
  it REGISTERED when Unregister falls before its last statement
  (`CloudManager.Manager.ConnectAndRegister`,
  `CloudManager.Manager.UnregisterBeforeTheLastStatement`).

- Resources made ready while the manager is not signed in are not always published after it has
  signed in, as the comment in `handleTrigger` has it: the handler drops them, and publishes
  them exactly if no resources have been published since the last reset
  (`CloudManager.Manager.HandleTrigger`, `CloudManager.AnnouncesExactly`,
  `CloudManager.Manager.MadeReadyOffline`). Those made ready for unpublishing are dropped too.

Where comments and code disagree the model follows the code. The comment above `Run` of the
event loop speaks of handlers that return an error or panic; the code removes a handler only
when its channel is closed. `EncodeETagsForIncrementalChanges` makes room for n/15 + 1
queries, and n/20 + 1 are enough.

## Model

| member | source | states |
|---|---|---|
| EventLoop.SortByPointer | pkg/eventloop/eventloop.go:86-88 | the caller's slice ends up sorted by address and a permutation of what it was |
| EventLoop.Search | pkg/eventloop/eventloop.go:98-100 | binary search finds the first address that is at least the one looked for, or the end |
| EventLoop.BuildWithout | pkg/eventloop/eventloop.go:95-106 | over a sorted slice the filter by binary search is the plain filter "channel not among them", in order |
| EventLoop.RemoveAttempt | pkg/eventloop/eventloop.go:85-106 | sorting and then filtering removes exactly the handlers on the channels the caller gave, in whatever order |
| EventLoop.BuildWith | pkg/eventloop/eventloop.go:62-66 | a fresh list: the old handlers and then the new ones |
| EventLoop.BuildCases | pkg/eventloop/eventloop.go:156-165 | two fixed cases and then the channel of each handler at its index plus two |
| EventLoop.CasesOf | pkg/eventloop/eventloop.go:156-165 | case i + 2 waits on the channel of handler i |
| EventLoop.WithoutOne | pkg/eventloop/eventloop.go:95-106 | the filter drops a handler on one of the channels and keeps every other one |
| EventLoop.WithoutAppend | pkg/eventloop/eventloop.go:95-106 | it does so to each handler on its own, so those that stay keep their order |
| EventLoopProtocol.Linearizable | pkg/eventloop/eventloop.go:54-111 | in every interleaving the published list is the replay of the operations in the order of their swaps; each call is in it once, in its caller's order, and at most the call under way is missing |
| EventLoopProtocol.DispatchIsAligned | pkg/eventloop/eventloop.go:128-166 | the panic and the nil dereferences are unreachable; at every select case i + 2 belongs to handler i; the pointer never returns to nil |
| EventLoopProtocol.ServesTheSelectedCase | pkg/eventloop/eventloop.go:134-150 | every case can be selected, and leads to the very handler whose channel it waits on: run with the value, or, for a closed channel, removed first |
| EventLoopProtocol.ClosedChannelIsRemoved | pkg/eventloop/eventloop.go:146-149 | undisturbed, the channel of the selected case and no other is removed from the published list, and then its handler runs with closed |
| EventLoopProtocol.CallCompletes | pkg/eventloop/eventloop.go:54-71 | an undisturbed call takes effect on the published list, fills the wake slot, returns, and touches nothing of the runner or of the other goroutines |
| EventLoopProtocol.TurnsTheLoop | pkg/eventloop/eventloop.go:128-166 | Run starts with the published list and loads it in every turn of the loop; a token is used up by one turn; a handler that is through leads to the next |
| EventLoopProtocol.LeavesExactlyWhenStopped | pkg/eventloop/eventloop.go:136-138 | Run returns exactly over the stop case |
| EventLoopProtocol.StartsEmpty | pkg/eventloop/eventloop.go:35-39 | a new loop has no handlers and no token |
| EventLoopProtocol.StaleRunnerIsWoken | pkg/eventloop/eventloop.go:42-71 | no lost wakeup: a runner blocked on a stale list has a full wake slot or a goroutine between its swap and its `Wake`, and two or three steps later it is blocked on the current list |
| EventLoopProtocol.QuietRunnerIsUpToDate | pkg/eventloop/eventloop.go:128-166 | when nobody is in a call and the slot is empty, a blocked runner waits on exactly the registered handlers |
| EventLoopProtocol.BackOnlyIfAdded | pkg/eventloop/eventloop.go:85-111 | a removed channel is in the list again only if a later swap added it |
| EventLoopProtocol.ClosedChannelStaysSilent | pkg/eventloop/eventloop.go:139-150 | after a channel's closed callback the select never picks it again until it has been added again |
| EventLoopProtocol.WithoutIsOff | pkg/eventloop/eventloop.go:95-106 | filtering leaves no handler on a removed channel and adds none |
| EventLoopProtocol.StepKeeps | pkg/eventloop/eventloop.go:42-166 | every step of every goroutine keeps the invariant: replay, prepared lists, alignment, no lost wakeup, program order |
| EventLoopProtocol.RunKeeps | pkg/eventloop/eventloop.go:42-166 | so does every run |
| EventLoopProtocol.SwapSucceeds | pkg/eventloop/eventloop.go:67-70 | a successful compare-and-swap publishes the operation's effect on the list it replaces |
| EventLoopProtocol.SwapFails | pkg/eventloop/eventloop.go:55-69 | a failed one changes nothing but sends the goroutine back to the load |
| EventLoopProtocol.RunnerSwapSucceeds | pkg/eventloop/eventloop.go:107-110 | the runner's own removal after a close is linearized like any other |
| EventLoopProtocol.RunnerSwapFails | pkg/eventloop/eventloop.go:107-110 | after a failed swap the runner tries again, for the same channel and the same handler |
| EventLoopProtocol.GetCasesKeeps | pkg/eventloop/eventloop.go:154-166 | getCases leaves the runner blocked on the list published at its load |
| ConnectionPool.OneDialAtATime | client/core/device.go:120-140 | a wrapper has at most one dial in flight, and dials only without a live connection and without an earlier error |
| ConnectionPool.FailedForever | client/core/device.go:120-140 | a dial error is final: over every run the wrapper keeps it and never has a live connection again |
| ConnectionPool.NoFailedWrapperStaysBehind | client/core/device.go:283-329 | while a failed wrapper is in the map some goroutine is inside `Dial` for it or about to call `removeConn` for it |
| ConnectionPool.NoDeadlock | client/core/device.go:269-329 | an unfinished goroutine can go on, or the holder of the very semaphore or lock it waits for can |
| ConnectionPool.RemoveDropsALiveConnection | client/core/device.go:283-309 | removeConn drops a live connection exactly if the wrapper it was called for is the mapped one and is connected |
| ConnectionPool.GivesUpAtOnce | client/core/device.go:311-329 | a caller whose context has already ended is refused by the free semaphore of a connected wrapper and takes the wrapper out of the map |
| ConnectionPool.TwoLiveConnectionsToOneAddress | client/core/device.go:256-329 | the first way to two live connections: a run that drops a connected wrapper and then connects again |
| OneConnection.TwoLiveWithoutDroppingOne | client/core/device.go:120-140 | the second way: a run that never takes a live connection out of the map and ends with two, because a waiting caller dials a removed wrapper again |
| OneConnection.StepKeepsMappedExactlyIf | client/core/device.go:283-309 | for every step from a state in which every used wrapper (connected, or being dialed and not failed) is in the map: they still are exactly if the step takes none of them out |
| OneConnection.AlwaysMappedExactlyIf | client/core/device.go:120-329 | over every run, every used wrapper is always in the map exactly if no step orphans one |
| OneConnection.OneConnectionUnlessOrphaned | client/core/device.go:120-329 | a run without such a step leaves every address with at most one live connection |
| OneConnection.OrphanGetsASibling | client/core/device.go:120-140 | a used wrapper that has left the map can get a live sibling without any further removal |
| OneConnection.TwoArePossibleExactlyIf | client/core/device.go:283-309 | after a step two live connections to one address are possible without further removals exactly if the step orphaned a wrapper |
| OneConnection.GetsConnected | client/core/device.go:120-140 | every used wrapper can get connected, whatever its caller waits for |
| ConnectionPool.Connects | client/core/device.go:256-281 | a first caller for an address ends with a mapped, connected, free wrapper |
| DialOutcomes.ReusesALiveConnection | client/core/device.go:120-131 | a caller that finds a live connection returns with it and changes nothing |
| DialOutcomes.RedialsADeadConnection | client/core/device.go:120-140 | a connection that died is dialed again on the same wrapper, which stays in the map |
| DialOutcomes.GetsTheEarlierError | client/core/device.go:130-131 | over an earlier error nothing is dialed, and the caller goes on to remove the wrapper |
| DialOutcomes.FailedDialIsRemembered | client/core/device.go:132-140 | a failed dial is kept in the wrapper, and its caller has to remove it |
| DialOutcomes.RemovesExactlyItself | client/core/device.go:283-309 | removeConn takes a wrapper out exactly if it is the mapped one, its semaphore is free and it was connected or failed before; otherwise only the caller moves |
| DialOutcomes.ConnectionsDie | client/core/device.go:177-329 | when a connection dies nothing else changes; each close handler is for the wrapper it was registered with; closing the device empties the map |
| ConnectionPool.StepKeeps | client/core/device.go:103-329 | every step keeps the invariant: who holds which semaphore and the lock, and that failed wrappers have someone to clean up |
| ConnectionPool.RunKeeps | client/core/device.go:103-329 | so does every run |
| ConnectionPool.CheckKeeps | client/core/device.go:120-134 | the checks under the semaphore: a live connection is reused, an old error returned, and only otherwise a dial starts |
| ConnectionPool.LockForRemoveKeeps | client/core/device.go:283-309 | giving up on a busy semaphore leaves no failed wrapper uncleaned, because its holder will come |
| ConnectionPool.RemoveKeeps | client/core/device.go:295-309 | removal keeps the invariant |
| ConnectionPool.DialFailsKeeps | client/core/device.go:132-140 | a failed dial leaves its caller responsible for the removal |
| CloudManager.Manager.AnyRun | bridge/device/cloud/manager.go:191-279 | any run of the handlers with connections breaking and API calls anywhere: every publishing request went out on a client signed in with the current token; REGISTERED with a client means signed in; without a URL the status is UNINITIALIZED exactly if none was set after the configuration, and always if no call cleared the URL during a handler; the two queues are disjoint |
| CloudManager.EachIsAllowed | bridge/device/cloud/publishResources.go:66-147 | every publish and unpublish request in the log went out on a connection whose last successful sign-in carried the current access token, and every unpublish request has 1 to 10 hrefs |
| CloudManager.EachQueryFits | bridge/device/cloud/publishResources.go:114-136 | in every run the query of every unpublish request has at most 189 characters for a 36-character device ID |
| CloudManager.Manager.constructor | bridge/device/cloud/manager.go:108-178 | a new manager satisfies all invariants and has the imported configuration without an authorization code, no client, no flag and no trigger |
| CloudManager.Manager.Post | bridge/device/cloud/manager.go:288-319 | a bad request changes nothing, and is exactly one without a body that decodes or with a URL but no cloud ID or provider; an empty URL clears configuration and queues; otherwise the whole posted configuration is taken and the rest kept; afterwards a reset is waiting unless ten triggers without one were |
| CloudManager.Manager.Unregister | bridge/device/cloud/manager.go:616-619 | configuration and queues are cleared, the status is UNINITIALIZED, credentials and client stay, and a reset is waiting unless ten triggers without one were |
| CloudManager.Manager.PublishResources | bridge/device/cloud/manager.go:628-640 | the hrefs are in the publish queue and out of the unpublish queue, and nothing else changes |
| CloudManager.Manager.UnpublishResources | bridge/device/cloud/manager.go:642-653 | the converse; the queues stay disjoint |
| CloudManager.Manager.Interleave | bridge/device/cloud/manager.go:552-560 | however many connections break and however late their close callbacks run, a client whose own connection is open keeps its sign-in, and the invariants survive |
| CloudManager.Manager.Send | bridge/device/cloud/signIn.go:71-71 | a request is logged with the token and the session of its connection; a connection that is broken when it is sent answers nothing |
| CloudManager.Manager.RefreshTokenStep | bridge/device/cloud/refreshToken.go:38-83 | without a refresh token nothing happens; with one, success is exactly an answer Changed with a new pair of tokens, and takes a new sign-in; Unauthorized ends the registration; at most one request, and an error without one means there is no client or something failed; when nothing fails over an open connection it succeeds |
| CloudManager.Manager.RefreshTokenRequest | bridge/device/cloud/refreshToken.go:50-83 | one request, and undisturbed the status is REGISTERING after it; only Unauthorized clears configuration and credentials and triggers the handler again |
| CloudManager.Manager.SignUpStep | bridge/device/cloud/signUp.go:57-93 | with an access token nothing happens; otherwise success is exactly an answer Changed with credentials, and takes them; when nothing fails over an open connection it succeeds exactly with a token, or a code and a provider; an error without a request means no client, no code or provider, or a failure |
| CloudManager.Manager.SignUpRequest | bridge/device/cloud/signUp.go:72-93 | one request, and undisturbed the status is REGISTERING after it; an error changes no credentials |
| CloudManager.Manager.SignInStep | bridge/device/cloud/signIn.go:53-102 | without an error the client is gone or signed in; a refused token ends the registration or forces a refresh; an error without a request means there was no client or no access token; when nothing fails over an open connection it succeeds exactly when signed in already or with an access token |
| CloudManager.Manager.SignInRequest | bridge/device/cloud/signIn.go:62-102 | one request, and undisturbed the status is REGISTERING after it; only Unauthorized without a refresh token clears configuration and credentials and triggers the handler again; signed in exactly by Changed with a body that decodes |
| CloudManager.Manager.AccessTokenRefused | bridge/device/cloud/signIn.go:75-84 | clean-up exactly without a refresh token |
| CloudManager.Manager.Cleanup | bridge/device/cloud/manager.go:275-279 | configuration, credentials, client and flags are cleared |
| CloudManager.Manager.ForgetCredentials | bridge/device/cloud/manager.go:263-272 | credentials, client and the three flags are cleared, whatever happens in between |
| CloudManager.Manager.PublishStep | bridge/device/cloud/publishResources.go:48-95 | all links the first time and those made ready later, one request and only if there is something to send; success is remembered; the queue is popped first; when nothing fails over an open connection it succeeds |
| CloudManager.Manager.PopReadyToUnpublish | bridge/device/cloud/manager.go:668-684 | any `count` hrefs, or all: a list without repeats that with the rest makes up the queue |
| CloudManager.Manager.UnpublishRound | bridge/device/cloud/publishResources.go:116-144 | one batch, one request; more rounds exactly after Deleted |
| CloudManager.Manager.UnpublishStep | bridge/device/cloud/publishResources.go:114-147 | the loop ends; undisturbed and with good answers the batches are disjoint, of 1 to 10 hrefs, make up the queue, and are as few as possible; when nothing fails over an open connection it succeeds |
| CloudManager.PartialFacts | bridge/device/cloud/publishResources.go:114-144 | popping batch after batch partitions the queue, and only the last batch is short |
| CloudManager.PartialIsBatched | bridge/device/cloud/publishResources.go:114-147 | when nothing is left, there are a tenth of the hrefs, rounded up, many batches |
| CloudManager.RoundKeepsPartial | bridge/device/cloud/publishResources.go:116-144 | one round moves one batch from the queue to what was sent |
| CloudManager.Manager.Dial | bridge/device/cloud/manager.go:499-563 | a live connection is always kept, and untouched; otherwise a new one that is not signed in takes its place, or there is none; it fails only when something does |
| CloudManager.Manager.Connect | bridge/device/cloud/manager.go:578-607 | always in the order refresh, sign up, sign in, publish, unpublish; a refresh exactly when due or forced and possible; no error means the client is gone or signed in, and what was ready has been published and unpublished; an error leaves no client; undisturbed it succeeds exactly with an access token or a way to one, and ends signed in over an open connection |
| CloudManager.Manager.Steps | bridge/device/cloud/manager.go:594-606 | the functions run in order up to the first error; without one the requests for signing in, one publish request and then the batches of unpublish requests have gone out |
| CloudManager.RankedAppend | bridge/device/cloud/manager.go:578-607 | requests sent in order stay in order |
| CloudManager.RefreshesFirst | bridge/device/cloud/manager.go:579-589 | among the requests of one connect a refresh can only be the first |
| CloudManager.Manager.SignOffStep | bridge/device/cloud/signOff.go:52-77 | at most one request, none only without a client or after a failure; it goes out while DEREGISTERING, and after it the status is UNINITIALIZED whatever the answer was; success is exactly the answer Deleted |
| CloudManager.Manager.ResetCredentials | bridge/device/cloud/manager.go:255-273 | no credentials, no client and no flags remain, and the status invariant survives |
| CloudManager.Manager.Proceed | bridge/device/cloud/manager.go:200-221 | a requested reconnect only closes the client; without a URL the queues are cleared and nothing is sent |
| CloudManager.Manager.HandleTrigger | bridge/device/cloud/manager.go:191-221 | the status invariants; a sign-off is sent only first and only for a reset, and is left out only without a client or after a failure; then the requests of one connect in order; a reset without a URL leaves everything cleared; with a URL an undisturbed handler ends signed in and REGISTERED, or without a client, and always the former if nothing fails and there is an access token or a way to one; then it has published all links after a reset, or exactly what was ready if it was signed in |
| CloudManager.Manager.Register | bridge/device/cloud/manager.go:212-220 | what is ready is dropped unless the manager is signed in, and what is left is published and unpublished |
| CloudManager.AnnouncesExactly | bridge/device/cloud/publishResources.go:48-95 | a link is in the publish request of a connect exactly if it was ready or nothing has been published since the last reset |
| CloudManager.Manager.MadeReadyOffline | bridge/device/cloud/manager.go:212-215 | a resource made ready while the manager is offline, after an earlier publishing, is not published by the handler that signs in, and no longer waits after it |
| CloudManager.Manager.HandleTimer | bridge/device/cloud/manager.go:223-235 | the status invariants; without a URL nothing happens, with one the requests of one connect are sent in order and it ends signed in and REGISTERED, or without a client, and always the former, with everything that was ready published and unpublished, if nothing fails and there is an access token or a way to one |
| CloudManager.Manager.ConnectAndRegister | bridge/device/cloud/manager.go:216-220 | after it the status is right exactly if there is a URL, or if connect failed and no status was set after the configuration; undisturbed, with an access token or a way to one, it ends REGISTERED and signed in over an open connection |
| CloudManager.Manager.UnregisterBeforeTheLastStatement | bridge/device/cloud/manager.go:216-220 | with Unregister before the last statement, every successful connect ends REGISTERED without a URL, and no failed one |
| UnpublishQuery.ToQuery | bridge/device/cloud/publishResources.go:103-112 | the loop builds the query of the hrefs |
| UnpublishQuery.QueryCarries | bridge/device/cloud/publishResources.go:97-112 | split at `&` and read as decimals, the query gives back the device and the number of every href in order |
| UnpublishQuery.QueryLength | bridge/device/cloud/publishResources.go:103-112 | at most 15 characters for each href |
| UnpublishQuery.BatchFits | bridge/device/cloud/publishResources.go:114-136 | at most 189 characters, within the 255 of section 5.10 of RFC 7252, for a batch of ten |
| UnpublishQuery.DecimalRoundTrip | bridge/device/cloud/publishResources.go:109-109 | the decimal form reads back as the number |
| UnpublishQuery.Uint32Length | bridge/device/cloud/publishResources.go:97-101 | 32 bits take at most ten digits |
| OwnDevice.FindOTMClient | client/core/ownDevice.go:252-261 | the first of the caller's methods the device supports, or none if there is none |
| OwnDevice.Owner.Own | client/core/ownDevice.go:549-623 | an owned device is never written; the method selected is the first of the caller's that the device supports; success means the complete script in order and a device owned by the SDK in every resource, with its access control list, in RFNOP; every failure with a TLS client ends in RESET as the last write, which leaves the device unowned and ready for another attempt unless it fails too; ownership is written in RFOTM only and the list in RFPRO only; when nothing fails, success is exactly a device the SDK owns already, or a ready one without an owner, with a method and a secure endpoint in common and a usable configuration |
| OwnDevice.ScriptIs | client/core/ownDevice.go:418-544 | the writes of a complete transfer, in order: the last one of the ownership is owned, and the access control list comes between RFPRO and RFNOP |
| OwnDevice.ScriptAchieves | client/core/ownDevice.go:418-544 | applied one after the other, these writes make the device owned by the SDK in every resource, with its access control list, in RFNOP |
| OwnDevice.Owner.TransferAndConfigure | client/core/ownDevice.go:602-622 | a prefix of the script and then RESET, or all of it; when nothing fails, all of it exactly for a ready device and a usable configuration; after a RESET that got through the device is nobody's, in RFOTM |
| OwnDevice.Owner.OwnershipTransfer | client/core/ownDevice.go:418-473 | a prefix of the transfer's writes, all in RFOTM; success is the transferred device, and comes exactly when nothing fails, the device is ready and the configuration usable |
| OwnDevice.Owner.PrepareTransfer | client/core/ownDevice.go:418-452 | the writes up to the credentials, the ID of the action during owning, and when they can succeed |
| OwnDevice.Owner.SetOwner | client/core/ownDevice.go:448-473 | credentials, owner ID, and the owners of the resources, in this order; success exactly when nothing fails |
| OwnDevice.Owner.SetResourceOwner | client/core/ownDevice.go:386-416 | the owners of the security resources, in order |
| OwnDevice.Owner.Configure | client/core/ownDevice.go:504-544 | RFPRO, the list, RFNOP; success only with all of it applied, and exactly when nothing fails |
| OwnDevice.Owner.SetACL | client/core/ownDevice.go:135-249 | the list is cleared and set for the owner |
| OwnDevice.Owner.CheckProvisionState | client/core/ownDevice.go:328-352 | success exactly in RFOTM, not pending, with client-directed provisioning supported, when the device answers |
| OwnDevice.Owner.GetTLSClient | client/core/ownDevice.go:284-306 | the secure endpoints are dialed in the order of the links, UDP before TCP, up to the first that answers; failure only after all of them |
| OwnDevice.AddressesInOrder | client/core/ownDevice.go:284-306 | the order of the dials: an earlier link first, and of one link UDP before TCP, each once |
| OwnDevice.AddressesOf | client/core/ownDevice.go:284-306 | exactly the secure endpoints of the links |
| OwnDevice.Owner.Update | client/core/ownDevice.go:100-115 | a write has its effect or fails without it, with it, or with a reset |
| DevicesObserver.WindowIsFewMisses | client/observeDevices.go:103-130 | the counters and the sliding window are the same thing: missed fewer than the threshold, and ever seen |
| DevicesObserver.WindowStep | client/observeDevices.go:103-130 | what one poll does to the window and to the misses |
| DevicesObserver.TracksStep | client/observeDevices.go:103-130 | counting incrementally keeps the counters equal to the misses of the whole history |
| DevicesObserver.NewsAlternates | client/observeDevices.go:231-244 | each device's events alternate and start with ONLINE |
| DevicesObserver.EmittedStep | client/observeDevices.go:231-243 | one more event of the kind for a device not yet told keeps "exactly one event for each device" |
| DevicesObserver.Observer.constructor | client/client.go:204-215 | a threshold of 0 becomes 3 |
| DevicesObserver.Observer.ProcessDevices | client/observeDevices.go:103-130 | the devices added and removed are the two differences of the windows, and the counters follow; counters stay below the threshold |
| DevicesObserver.Observer.Handle | client/observeDevices.go:268-275 | nothing is delivered after the end of the observation |
| DevicesObserver.Observer.EmitAdded | client/observeDevices.go:231-237 | one ONLINE event for each added device |
| DevicesObserver.Observer.EmitRemoved | client/observeDevices.go:238-243 | one OFFLINE event for each removed device |
| DevicesObserver.Observer.Poll | client/observeDevices.go:85-101 | after a poll the online devices are those of the last `threshold` polls, and the events are exactly the differences; the observer goes on exactly if the discovery succeeded, no event was answered with an error and nobody has cancelled |
| DevicesObserver.AnyRun | client/observeDevices.go:85-130 | over every run: the sliding window, alternating events, the listener believes what the observer holds, and it is still polling exactly if every discovery succeeded, no event was answered with an error and nobody has cancelled |
| ThingDescription.NoLostThingDescription | bridge/device/thingDescription/manager.go:73-103 | in every interleaving a pending description is the latest, and a token, a goroutine that has to send, a handler about to load or one that loaded it will deal with it |
| ThingDescription.QuiescentMeansDelivered | bridge/device/thingDescription/manager.go:73-103 | at rest every subscriber registered before the last store has got the last description |
| ThingDescription.DeliveriesIncrease | bridge/device/thingDescription/manager.go:73-87 | nobody gets a description twice or an older one later |
| ThingDescription.UnregisteredStaysSilent | bridge/device/thingDescription/manager.go:73-103 | a subscriber that unregisters gets nothing more, in every interleaving |
| ThingDescription.SubscriptionStays | bridge/device/thingDescription/manager.go:73-103 | only its own unregistering ends a subscription |
| ThingDescription.RegisteringEntitles | bridge/device/thingDescription/manager.go:73-103 | whoever registers is owed the next description |
| ThingDescription.LatestIsEventuallyDelivered | bridge/device/thingDescription/manager.go:73-103 | after any run, finishing the sends and the handler delivers the latest description |
| ThingDescription.Drain | bridge/device/thingDescription/manager.go:73-103 | from every state the pending work alone leads to rest |
| ThingDescription.NeverStuck | bridge/device/thingDescription/manager.go:73-103 | short of rest some pending step can be taken |
| ThingDescription.DrainDecreases | bridge/device/thingDescription/manager.go:73-103 | every such step leaves less work, so no order of them goes on forever |
| ThingDescription.NotLostStep | bridge/device/thingDescription/manager.go:73-103 | each step keeps the last description from being lost |
| ThingDescription.DeliveredStep | bridge/device/thingDescription/manager.go:73-95 | each step keeps what the subscribers are owed |
| ThingDescription.InOrderStep | bridge/device/thingDescription/manager.go:73-103 | each step keeps every subscriber's descriptions in order |
| IncrementalChanges.EncodeETagsForIncrementalChanges | pkg/net/coap/incrementalChanges.go:24-58 | stripped, split and decoded, the queries give exactly the ETags of at most 8 bytes in order; each starts with incChanges= and has at most 250 characters; at least 20 ETags in every query but the last, so at most n/20 + 1 queries |
| IncrementalChanges.EncodeDecode | pkg/net/coap/incrementalChanges.go:44-44 | base64url (section 5 of RFC 4648) reads back, and has no comma |
| IncrementalChanges.SextetsRoundTrip | pkg/net/coap/incrementalChanges.go:44-44 | regrouping bits by six and back is the identity |
| IncrementalChanges.SextetsOfNumber | pkg/net/coap/incrementalChanges.go:44-44 | the sextets are the digits to the base 64 of the number the bytes are, after 0, 2 or 4 more zero bits (section 4 of RFC 4648) |
| IncrementalChanges.AlphabetOfSextets | pkg/net/coap/incrementalChanges.go:44-44 | the characters are those of the URL-safe alphabet, in its order |
| IncrementalChanges.CharsRoundTrip | pkg/net/coap/incrementalChanges.go:44-44 | the alphabet reads back and has no comma |
| IncrementalChanges.ExtendCarries | pkg/net/coap/incrementalChanges.go:37-47 | one more ETag in the builder is one more ETag for the receiver |
| IncrementalChanges.FlushStep | pkg/net/coap/incrementalChanges.go:48-51 | flushing the builder loses nothing |
| Strings.SplitAppend | pkg/net/coap/incrementalChanges.go:38-43 | a separator and a part without one add exactly that part |
| KeyUsage.ReversedBit | pkg/security/generateCertificate/config.go:124-129 | bit k of the reversed byte is bit 7 - k of the byte, for every byte |
| KeyUsage.Asn1BitLength | pkg/security/generateCertificate/config.go:131-149 | for every byte string the index after the last set bit in ASN.1 order, 0 if there is none |
| KeyUsage.X509KeyUsages | pkg/security/generateCertificate/config.go:151-179 | an error exactly for an unknown name; otherwise a bit is set exactly if its usage was named |
| KeyUsage.AsnKeyUsages | pkg/security/generateCertificate/config.go:181-198 | bit i of the result is set exactly if usage i was named, the length is minimal (section 11.2.2 of X.690), and there is a second byte exactly for the ninth usage |
| KeyUsage.MaskBytesCarry | pkg/security/generateCertificate/config.go:181-198 | the bytes carry usage i of the mask at position i and nothing else |
| KeyUsage.SetBit | pkg/security/generateCertificate/config.go:151-179 | setting one usage leaves the others |
| KeyUsage.UsageIndex | pkg/security/generateCertificate/config.go:154-176 | the position of a name (section 4.2.1.3 of RFC 5280), or none for any other string |
| Endpoints.InsertInPlace | client/getDevices.go:324-325 | insertion by swaps in the array is stable insertion into the sorted part |
| Endpoints.SortStable | client/getDevices.go:324-325 | the array ends up as the stable sort of what it was |
| Endpoints.SortBothIsSorted | client/getDevices.go:324-325 | the two stable sorts give the (priority, URI) order of the same endpoints |
| Endpoints.LeIsLexicographic | client/getDevices.go:324-324 | strings are compared like in Go: a prefix comes first, and otherwise the smaller character at the first difference |
| Endpoints.InsertByPriority | client/getDevices.go:325-325 | stability: the second sort does not undo the first among equal priorities |
| Endpoints.SortedIsUnique | client/getDevices.go:324-325 | a multiset of endpoints has one order |
| Endpoints.MergeEndpoints | client/getDevices.go:320-335 | the method computes the merge the lemmas are about |
| Endpoints.MergeIsOrdered | client/getDevices.go:320-335 | the result is in (priority, URI) order, without equal URIs side by side, and holds only endpoints that went in |
| Endpoints.MergeKeepsUris | client/getDevices.go:320-335 | every URI but the empty one survives at its smallest priority |
| Endpoints.MergeCommutes | client/getDevices.go:320-335 | the order of the two lists does not matter |
| Endpoints.MergeIsIdempotent | client/getDevices.go:320-335 | merging a result with itself changes nothing |
| Endpoints.MergeHolds | client/getDevices.go:320-335 | a merge holds exactly the endpoints that do not have the URI of the one before them in the order of all, and are not a first one without a URI |
| Endpoints.MergeAssociatesExactlyIf | client/getDevices.go:302-335 | for all lists, grouping does not matter exactly if no endpoint of the outer list parts two neighbours of the inner two that have one URI, on either side |
| Endpoints.MergeAssociatesWithOnePriority | client/getDevices.go:302-335 | so it does not matter when every URI has one priority and none is empty |
| Endpoints.MergeIsNotAssociative | client/getDevices.go:302-335 | it does matter for any endpoint between two others with one URI |
| Runs.AssociatesExactlyIf | client/getDevices.go:326-334 | for the pass that keeps only the first of every run, over any linear order |
| Runs.KeptAgain | client/getDevices.go:326-334 | leaving out what is not kept changes nothing of what is kept |
| Endpoints.DropRepeats | client/getDevices.go:326-334 | the loop drops exactly the endpoints with the URI of the one before |
| DeviceCache.Cache.GetDevice | client/deviceCache.go:78-87 | a live entry is found, and if it can expire it is found until the default time from now and not later |
| DeviceCache.Cache.GetDeviceExpiration | client/deviceCache.go:106-112 | the expiry of a live entry |
| DeviceCache.Cache.UpdateOrStore | client/deviceCache.go:117-176 | stored if absent or expired; otherwise the cached object is updated, and its expiry only if it has one; then it is found exactly until the given time |
| DeviceCache.Cache.UpdateBy | client/core/device.go:63-83 | the ID is taken over, the address only if there is one |
| DeviceCache.Cache.TryToChangeDeviceExpirationToDefault | client/deviceCache.go:137-147 | changed exactly for a live entry of a device without an address, which then is found until the default time from now and not later |
| DeviceCache.Cache.LoadAndDeleteDevices | client/deviceCache.go:195-211 | exactly the entries of the filter, or all, are deleted and returned |
| DeviceCache.Cache.GetDeviceByFoundIP | client/deviceCache.go:89-104 | at most one live device with the address, and none only if there is none |
| DeviceCache.Cache.GetDevicesFoundByIP | client/deviceCache.go:178-193 | exactly the live entries found by IP, with their addresses |
| DeviceCache.Cache.UpdateCache | client/ownDevice.go:48-63 | the device is stored under its new ID, permanently if the old entry was, and the old entry deleted |
| DeviceCache.Cache.Relink | client/getDevice.go:150-170 | the entry moves to the ID the links show, with an expiry |
| DeviceCache.StaysExactlyUnless | client/deviceCache.go:78-176 | for each operation, exactly when an entry without expiry stays one |
| DeviceCache.PermanentSurvives | client/deviceCache.go:78-211 | a permanent entry survives, with its object, every run that does not delete or move it |
| DeviceCache.StoredIsFound | client/deviceCache.go:114-176 | a device stored under an ID that is not in use is found from then on: for good, or for the default time |
| DeviceCache.UsedStays | client/deviceCache.go:78-211 | an entry used at a time is found until the default time later, in every run that does not delete or move it |
| DeviceCache.UnusedExpires | client/deviceCache.go:78-211 | an entry that can expire is not found later than that, in every run that does not use it again |
| DeviceCache.AddressesStay | client/core/device.go:63-83 | no operation takes a device's address away |
| DeviceCache.PerformedKeepsIds | client/ownDevice.go:48-63 | every operation, updateCache after a new ID included, leaves each entry under the ID of its device |
| DeviceCache.KeysStayIds | client/ownDevice.go:48-63 | so does every run |
| DeviceCache.RekeyMoves | client/ownDevice.go:48-63 | nothing stays under the old ID, a permanent device is permanent under the new one, and no other entry changes |
| DeviceCache.RelinkKeepsPermanenceExactlyIf | client/getDevice.go:150-170 | a moved permanent entry is permanent exactly if nothing expires or the new ID had an entry that never expires |
| Credentials.Manager.GetNextID | bridge/device/credential/manager.go:77-86 | one more than the largest key and 0, with the wrap-around of a 64-bit int |
| Credentials.NextIDIsFreeExactlyUnless | bridge/device/credential/manager.go:77-86 | the next ID is free, unless the largest and the smallest int are both taken |
| Credentials.Manager.Add | bridge/device/credential/manager.go:88-96 | two rounds of the loop decide: it stores under a free ID, or it never will |
| Credentials.NeverReturnsExactlyIf | bridge/device/credential/manager.go:88-109 | a call never returns exactly for a typed credential without ID when 0, the largest and the smallest int are taken |
| Credentials.AddOverwritesNothing | bridge/device/credential/manager.go:88-109 | an add takes one new key and changes no other |
| Credentials.Manager.AddOrReplaceCredential | bridge/device/credential/manager.go:98-109 | an empty type is ignored; an ID replaces exactly what was under it; without an ID one new key is taken; it never returns exactly if 0, the largest and the smallest int are taken |
| Credentials.Manager.AddOrReplaceCredentials | bridge/device/credential/manager.go:111-115 | one after the other |
| Credentials.TheLastOneStays | bridge/device/credential/manager.go:111-115 | under an ID is in the end the last credential of the list with it |
| Credentials.Manager.RemoveCredentials | bridge/device/credential/manager.go:117-121 | exactly the given keys go |
| Credentials.Manager.RemoveCredentialsBySubjects | bridge/device/credential/manager.go:123-132 | exactly the credentials of the subjects go, whatever the order of the range |
| Credentials.Manager.GetRep | bridge/device/credential/manager.go:138-153 | each credential once, with its type, subject and other data, and without its private data unless asked for |
| Credentials.EveryRunIsGood | bridge/device/credential/manager.go:98-136 | in every reachable state each credential is under its own ID and has a type |
| Credentials.SparedStays | bridge/device/credential/manager.go:88-136 | a credential stays as it is in every run that does not remove or replace it: the IDs chosen for others are never its own |
| Credentials.ImportOfExport | bridge/device/credential/manager.go:54-56 | importing an export rebuilds the same store, in whatever order the map was written |

## Left out

- Sockets, dialing, TLS and DTLS, multicast discovery, certificates and the CBOR and JSON codecs: requests are oracles, bodies are what they decode to.
- `sync.Map`, `cache.Cache`, `semaphore.Weighted`, `reflect.Select` and `sort`: the first four are assumed to behave as the comment at the head of each module says; for the sorts there is an implementation with a proof.
- Command-line tools, configuration files, logging, option structs, error texts and schema constants.
- Several goroutines in `Run` of one event loop: one runner is modelled. `Remove` collects the channels of its handlers and calls RemoveByChannels.
- `Close` of the thing-description manager: a NotifySubscriptions after it would send on a closed channel.
- In the cloud manager: errors while a request is put together (the bodies always encode), `save`, the previous cloud IDs, the certificate pool, serving requests from the cloud, and the clock; whether credentials expire soon is chosen freely. Other goroutines make any finite number of calls. Closing the `done` channel is the closing of the client.
- Liveness of the cloud manager: a trigger is dropped when ten are waiting, and `publishResources` takes its queue before it sends.
- In `Own`: the device changes only by these writes; what the actions given by the caller do to the device besides choosing its ID.
- `mergeDevices` and `setOwnership`: loops over maps that add only easy members.
- Concurrent calls of the device cache and of the credential store: their operations are modelled one at a time.
- CloudManager.Manager.UnregisterBeforeTheLastStatement: states what follows whenever connect succeeds; that it can succeed depends on answers that are chosen freely.
- DeviceCache.Cache.GetDeviceByFoundIP: which of several devices with the address is returned is left open, as in the source.
- Credentials.Manager.Add: takes a number of rounds, because a loop that may not end cannot be written; its result says whether the source's loop ends.
- UnpublishQuery.QueryCarries: the CRC-32 is any function, so two hrefs may have one number, as in the source.
