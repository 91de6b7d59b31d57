# Message switch: the registry, its protocols, and the digest

A Dafny model of two independent parts of the message switch, with proofs about them.

**The switch server.** Clients connect, register under an endpoint id in one of three roles, set filters, publish, and
ask services for answers. The server keeps five redundant views of one population: all endpoints, the normal and the
admin endpoints, the service endpoints by type, and the subscribers by message type. Routing and statistics are right
only as long as the views agree.

| module | what it holds |
|---|---|
| `SwitchTypes`, `Entities` | widths and command codes; the connection and endpoint objects with their filter sets |
| `Registry` | the state of the server and the effect of every step on it, as functions |
| `RegistryInvariant` | the invariant that the views agree, kept by every step under E1, E2 and E3 |
| `Runs` | whole runs: reachable states, pending connections, who owns an endpoint |
| `Environment`, `Counterexamples` | the hypotheses E1, E2, E3 are exactly what is needed; concrete runs and inputs that fail |
| `Routing`, `Delivery` | who receives a publish, and how many copies are sent to whom |
| `Services` | service selection, and the correlation of responses with requests |
| `Filters` | filter sets are last-writer-wins over the commands an endpoint has sent |
| `Statistics` | the reported totals add up and the id lists are a permutation of the keys |
| `Context`, `SwitchService`, `CommandHandler`, `SwitchServer`, `Network` | the server's own classes, updated in place, each method proved against the functions of `Registry` and the specifications above |
| `Registration`, `Commands` | which registrations succeed, in which role and with what answer; what each command code makes the server do |
| `LittleEndian`, `Wire` | word codec; frames: the length field converted in place, publish and service frames of both sides |
| `ClientProtocol` | what the frames of the client library make the server do |
| `Rfc1321`, `Md5` | the digest of RFC 1321; the streaming class `MD5`, proved to compute it |
| `Rfc1321Laws`, `Rfc1321Abc` | what the boolean functions, the rotation and the padding mean, bit by bit; the digest of "abc" that the RFC prints, computed by the definitions |

The classes and the runs meet in `SwitchServer.Server`: its ghost field `run` records the steps taken so far, and every
callback keeps `Valid()`, which says that this is a run of the registry ending in the state of the maps in memory. What is
proved of all runs therefore holds of the server object after any sequence of callbacks.

**The digest.** `Md5.MD5` has the 64-byte buffer, the two-word bit counter and the four chaining words of the original.
However a message is cut into `update` calls, `finalize` gives the digest that RFC 1321 defines (sections 3.1 to 3.5),
and the 64 unrolled steps of `transform` are the four rounds of section 3.4. The definitions these proofs rest on are tied
down from outside: the boolean functions and the rotation by their effect on every set of bits, and all of them together by
the digest of "abc" in appendix A.5 of the RFC.

## Assumptions

- The host is little-endian and `int` has 32 bits, as the original assumes. Shifts and masks of unsigned words in the
  counter and the codecs are written as division and remainder; the boolean functions and rotations of the rounds use
  32-bit vectors. The 64 additive constants are those of the table in the appendix of RFC 1321.
- `update` is used within the lengths on which its 32-bit loop test is the true one. `Md5.LoopTestExact` gives the exact
  condition; every length below 2^32 - 64 meets it.
- E1: a connection that has not registered carries an id that is no key of `endpoints`. The id a connection starts with is
  not visible in this repository; `Environment.ZeroIdsGiveE1` shows that E1 follows when that id is 0.
- E2: a connection registers under one id only. E3: no takeover of an id from another connection.
- The operating system does not reuse the descriptor of an open connection, and new objects are new (`Registry.Possible`).
- `Disconnect()` asks for a later close of the connection; the close is a step of its own.
- A set of endpoint pointers may be walked in any order; maps and sets keyed by integers are walked in ascending order.
- Decoded commands are taken as given (`CommandHandler.Content`), and so are the random draws and the generated token.

## Where the code and its intention part

- A takeover rewrites the endpoint's connection but not the new connection's id. When the kicked connection then closes,
  the endpoint that was taken over is removed, although its new connection is open, and the role index keeps it
  (`Environment.TakeoverLosesEndpoint`, run: `Counterexamples.TakeoverRun`).
- When the last service of a type closes its connection, an empty set stays behind in `service_endpoints`. Requests for the
  type are then refused even if wildcard services are there (`Services.LastCloseLeavesEmptyEntry`,
  `Services.WildcardStandsInExactly`).
- Typed publishing falls back to plain publishing while nobody subscribes to anything, and then does not look at the
  rejected types (`Routing.FallbackDiffersAtRejections`).
- A received length field of 1 or 2 is not sent on as it came (`Wire.ForwardingRestores`), and a payload above 65533 bytes
  loses its length, because the 16-bit sum wraps before the assertion that should catch it (`Wire.DecodeAfterEncode`).
- `Payload()` of a publish frame still holds the targets, because the size of a zero-length array is 0
  (`Wire.PayloadKeepsTargets`).

## Model

| member | source | states |
|---|---|---|
| RegistryInvariant.NextKeepsInv | src/server/switch_service.cpp:47-153 | Every step under E1, E2, E3 keeps all views in agreement: endpoints under their own `Id()`, 0 no key, each in exactly the index of its role, services in the set of their current type and no other, connections pending or owners, subscribers indexed |
| Runs.ReachableInv | src/server/switch_service.cpp:8-156 | The same in every reachable state of every run |
| Registry.NextWellFormed | src/server/switch_context.cpp:39-65 | Every step, with or without E1 to E3, keeps all references inside the state |
| RegistryInvariant.EnrolKeepsInv | src/server/switch_service.cpp:57-81 | A new registration keeps the agreement |
| RegistryInvariant.RejoinKeepsInv | src/server/switch_service.cpp:82-151 | Renewing a token, switching the role and switching the service type keep it, in every combination |
| RegistryInvariant.FilterKeepsInv | src/server/switch_service.cpp:271-395 | Every filter command keeps it, with the subscriber index updated as the code does |
| RegistryInvariant.ReadyKeepsInv | src/server/switch_server.cpp:82-86 | A new connection keeps it |
| RegistryInvariant.ClosedKeepsInv | src/server/switch_server.cpp:87-93 | A close keeps it, although empty service sets and stale subscriber ids are left |
| Environment.RegistrationExact | src/server/switch_service.cpp:82-96 | A registration keeps the agreement if and only if it is refused or meets E1, E2 and E3 |
| Environment.ConnectionExact | src/server/switch_server.cpp:82-86 | A new connection keeps it if and only if the id it comes with is no key |
| Environment.ZeroIdsGiveE1 | src/server/switch_endpoint.h:25-26 | If connections start with id 0, runs under E2 and E3 alone satisfy E1 |
| Environment.TakeoverLosesEndpoint | src/server/switch_service.cpp:86-90 | After any takeover by a normal endpoint the close of the kicked connection removes the endpoint of the open one and leaves it in the role index |
| Counterexamples.TakeoverRun | src/server/switch_service.cpp:86-90 | A run of five steps that ends so: E3 is needed |
| Counterexamples.SecondIdRun | src/server/switch_service.cpp:59-81 | A run of three steps in which a second id breaks the agreement: E2 is needed |
| Counterexamples.OneClientRun | src/server/switch_service.cpp:57-81 | A run that meets E1, E2 and E3, for any connection and endpoint: the statements about allowed runs are not empty |
| Environment.CloseRemovesOwnEndpointOnly | src/server/switch_server.cpp:87-93 | A close removes the endpoint of its connection from every view and changes nothing else in any of them |
| Runs.PendingExact | src/server/switch_service.cpp:153-155 | In every run, without E1 to E3, `pending_clients` is exactly the open connections without a successful registration, each under its descriptor |
| Runs.OwnerStays | src/server/switch_server.cpp:87-93 | A registered connection keeps its endpoint and id as long as it stays open |
| Runs.NoCloseSound | src/server/switch_service.cpp:313-356 | Until the first close the subscriber index is exactly the live whitelists |
| Registration.RegistersExactly | src/server/switch_service.cpp:13-96 | A registration succeeds exactly with the right access code, a role of 1 to 3 and, for a taken id, over the same connection or with the last token |
| Registration.RefusedChangesNothing | src/server/switch_service.cpp:24-96 | A refused one changes nothing |
| Registration.RegisteredInRole | src/server/switch_service.cpp:57-150 | Codes 1, 2 and 3 leave the endpoint a normal, an admin, a service endpoint, in the index of that role and no other, a service in the set of the type it asked for |
| Registration.ReportedTruly | src/server/switch_service.cpp:48-155 | What is reported is what is stored: the id, the token exactly when it is new, the role exactly when it was switched; who is displaced, told and disconnected |
| Commands.RegisterCode | src/server/switch_command_handler.cpp:141-165 | Code 2: no step and the error without the right access code, with an unknown role or an unreadable payload; else the error exactly when a taken id may not be rejoined |
| Commands.FilterCodes | src/server/switch_command_handler.cpp:76-93 | Codes 3 to 8: which set of the sender gains or loses exactly which ids and types, in the state after the dispatched step; nothing else of any endpoint changes |
| Commands.FilterAnswers | src/server/switch_service.cpp:271-395 | They are answered with the error exactly when they name nothing or cannot be read |
| Commands.PublishCodes | src/server/switch_command_handler.cpp:94-99 | Codes 9 and 10: what is sent to whom, then the count to the publisher |
| Commands.RequestCode | src/server/switch_command_handler.cpp:380-435 | Code 11, request: passed on to one live service that takes it, of the requested type or of the wildcard's while nobody serves that; if there is none, a reply with the response flag, the request's header and error code 1 goes back |
| Commands.ResponseCode | src/server/switch_command_handler.cpp:437-454 | Code 11, response: passed on to the endpoint under the source id, or dropped |
| Commands.KickoutCode | src/server/switch_command_handler.cpp:533-552 | Code 16: only an admin kicks out, anyone else gets the error and nobody is told |
| Commands.UnknownSender | src/server/switch_command_handler.cpp:50-73 | From an unregistered sender only codes 1 and 2 are heeded; every other is answered with the error |
| Commands.PassedOnUnchanged | src/server/switch_command_handler.cpp:299-303 | What is passed on is what was received, byte by byte, exactly when the length field was neither 1 nor 2 |
| Commands.LogGrows | src/server/switch_command_handler.cpp:37-129 | Of every command but those left out, exactly the reaction so described is added to what was sent before |
| Routing.TypedFindsSubscribers | src/server/switch_command_handler.cpp:346-360 | Typed publishing by the index reaches every live allowed subscriber of the type, and else at most endpoints without a whitelist |
| Routing.TypedIsScan | src/server/switch_command_handler.cpp:346-360 | In every state of a run without closes it reaches exactly the allowed subscribers |
| Routing.FallbackDiffersAtRejections | src/server/switch_command_handler.cpp:361-363 | With an empty index every whitelist is empty, and the fallback delivers what a typed check would refuse exactly at the endpoints that reject the type |
| Routing.WideMulticastIsBroadcast | src/server/switch_command_handler.cpp:275-297 | Multicast to a superset of the normal ids has the recipients of broadcast |
| Routing.NeverToSender | src/server/switch_service.cpp:399-401 | The sender is no recipient, whichever way recipients are found |
| Routing.RecipientsHaveOwnConnections | src/server/switch_endpoint.h:25-26 | Different recipients are reached over different open connections that carry their ids |
| Routing.ExplicitCounts | src/server/switch_command_handler.cpp:333-345 | Explicit targets: an endpoint is served as often as it is named if it is allowed, else never |
| Routing.ExplicitOrder | src/server/switch_command_handler.cpp:333-345 | Explicit targets: the order of the names is the order of the recipients |
| Routing.AscendingUnique | src/server/switch_command_handler.cpp:277-283 | There is one ascending listing of a set of ids, so the order of plain and typed sends is determined |
| Routing.AscendingLength | src/server/switch_command_handler.cpp:305-308 | It has one entry for each id |
| Routing.ChosenInOrder | src/server/switch_command_handler.cpp:277-296 | Walking a map or a forward set in key order and keeping the allowed ids lists the allowed ids in order |
| Routing.InOrder | src/server/switch_command_handler.cpp:277-277 | The order in which an integer-keyed container is walked: ascending, each key once |
| Delivery.PlainDelivered | src/server/switch_command_handler.cpp:269-311 | A plain publish sends exactly one copy to each recipient's connection, none to any other endpoint's, and then reports the number of recipients |
| Delivery.TypedDelivered | src/server/switch_command_handler.cpp:346-377 | The same for a typed publish by the index |
| Delivery.ExplicitDelivered | src/server/switch_command_handler.cpp:333-377 | To explicit targets: as many copies to an allowed endpoint's connection as it is named, none to any other |
| Delivery.SentCounts | src/server/switch_command_handler.cpp:300-303 | The send loop puts as many copies on a connection as its endpoint is a target |
| Delivery.PlainAscending | src/server/switch_command_handler.cpp:277-303 | The copies of a plain publish go out in the ascending order of the recipients' ids |
| Delivery.TypedAscending | src/server/switch_command_handler.cpp:348-371 | So do those of a typed publish by the index |
| Delivery.ExplicitInOrder | src/server/switch_command_handler.cpp:333-371 | Those to explicit targets in the order of the targets found |
| Delivery.KickedOutExactly | src/server/switch_service.cpp:467-514 | Every registered endpoint is told and disconnected as often as it is named, each notice directly before its disconnection, in the order of the names, and nothing else is asked for |
| Delivery.FoundCounts | src/server/switch_service.cpp:478-482 | The names found are the registered ones, as often as they stand in the command |
| Delivery.FoundInOrder | src/server/switch_service.cpp:478-482 | And in its order |
| Services.ChosenServes | src/server/switch_command_handler.cpp:388-412 | The chosen endpoint is live, takes the command, and has the requested type, or the wildcard type while no live endpoint serves the requested one |
| Services.RefusedExactly | src/server/switch_command_handler.cpp:414-433 | The error reply is sent exactly when no live service of the consulted type takes the command |
| Services.WildcardStandsInExactly | src/server/switch_command_handler.cpp:400-412 | With no live service of the type, the wildcard services stand in exactly when no entry for the type is left, or there is nobody to stand in |
| Services.LastCloseLeavesEmptyEntry | src/server/switch_context.cpp:52-59 | The close of the last service of a type leaves an empty entry |
| Services.EmptyEntryRefuses | src/server/switch_command_handler.cpp:390-399 | An empty entry refuses every request for its type |
| Services.NoCloseNoEmptyEntry | src/server/switch_service.cpp:114-150 | Only closes leave empty entries: until the first close, role and type switches drop every entry they empty |
| Services.WildcardInRun | src/server/switch_command_handler.cpp:388-412 | So until the first close the candidates are the allowed services of the requested type if somebody serves it, and the allowed wildcard services if nobody does |
| Services.ResponseReachesRequester | src/server/switch_command_handler.cpp:437-454 | In every run with any interleaving of requests: if clients name themselves as the source and services echo the header they were sent, a response goes to the endpoint registered under the id that made an earlier request with the same type, command and session, and to that very connection while it is open |
| Filters.LastWriterWins | src/server/switch_endpoint.cpp:10-83 | After any commands an id or type is in a filter set exactly when the last command naming it was the adding one |
| Filters.DecisionFromHistory | src/server/switch_service.cpp:397-432 | The routing decision is a closed formula over those last words, rejection before subscription |
| Filters.HistoryTells | src/server/switch_service.cpp:271-395 | In every reachable state the filters of an endpoint are those of the commands its connection has sent since it registered |
| Filters.DecisionInRun | src/server/switch_service.cpp:397-432 | So the decision in any reachable state is the formula over the run's own history |
| Filters.DecisionBetween | src/server/switch_service.cpp:397-432 | Between the endpoints of any two connections: allowed exactly when their ids differ and the history of the target's connection admits the id of the source's |
| SwitchService.Service.DecidesByHistory | src/server/switch_service.cpp:397-432 | The same of the branches of `is_forwarding_allowed`, in any state of the server that an allowed run has reached |
| Filters.PlainInRun | src/server/switch_command_handler.cpp:273-297 | A plain publish reaches exactly the other normal endpoints whose history admits the sender and that the sender's own forward commands let through, all of them when those list nothing or list 0 |
| Filters.TypedInRun | src/server/switch_command_handler.cpp:346-360 | Until the first close a typed publish by the index reaches exactly the other endpoints whose last word on the type was to subscribe and whose history admits the sender |
| Statistics.TotalsAddUp | src/server/switch_service.cpp:186-208 | In every reachable state: total = normal + admin + distinct service endpoints |
| Statistics.ListsArePermutation | src/server/switch_service.cpp:210-224 | The three detailed id lists together are a permutation of the endpoint keys |
| Statistics.KeysSplit | src/server/switch_service.cpp:186-199 | The keys are the disjoint union of the normal, the admin and the reported service ids |
| Statistics.TotalsByRole | src/server/switch_service.cpp:186-208 | Each total is the number of registered ids with that role in their records; the pending total that of the open connections without a successful registration |
| Statistics.ListsByRole | src/server/switch_service.cpp:214-224 | Each list holds the ids of its role, in ascending order, and of its service type, with no list for a type without services |
| Statistics.IndexTotals | src/server/switch_service.cpp:192-206 | Until the first close: the service-type total is the number of types somebody serves, the message totals the numbers of types subscribed to and of endpoints with a subscription, by the records |
| Statistics.SubscriberLists | src/server/switch_service.cpp:225-229 | Until the first close the list of a message type holds, ascending, the ids of the endpoints that subscribe to it |
| SwitchServer.Server.constructor | src/server/switch_server.cpp:40-52 | A fresh server is at the start of a run |
| SwitchServer.Server.OnConnectionReady | src/server/switch_server.cpp:82-86 | Extends the run by the step "connection ready" |
| SwitchServer.Server.OnConnectionClosed | src/server/switch_server.cpp:87-93 | Extends the run by the step "connection closed" |
| SwitchServer.Server.OnMessageRecvd | src/server/switch_server.cpp:94-101 | Extends the run by the step that the decoded buffer names, or by none, and answers as specified |
| CommandHandler.Handler.HandleCommand | src/server/switch_command_handler.cpp:37-129 | Decodes in place and dispatches: which step a buffer causes for which sender, and all that is sent, reported and asked for in answer; the lemmas of `Commands` say what that is for each code |
| CommandHandler.Handler.HandleRegister | src/server/switch_command_handler.cpp:141-165 | Registration as a step, who is displaced, and the error code; without the right access code or with an unknown role the error alone, and nothing changes |
| CommandHandler.Handler.HandleFilter | src/server/switch_command_handler.cpp:167-267 | Each of the six filter commands as a step, and the error code |
| CommandHandler.Handler.HandlePublishData | src/server/switch_command_handler.cpp:269-311 | The re-encoded buffer goes to the plain recipients in ascending order, then the count to the publisher |
| CommandHandler.Handler.BroadcastTargets | src/server/switch_command_handler.cpp:275-283 | The broadcast loop finds exactly the plain recipients, ascending |
| CommandHandler.Handler.MulticastTargets | src/server/switch_command_handler.cpp:284-297 | So does the multicast loop over the forward set |
| CommandHandler.Handler.HandlePublishDataToTargets | src/server/switch_command_handler.cpp:313-378 | The same for explicit targets, for the index, and for the fallback, read from the buffer |
| CommandHandler.Handler.FindExplicitTargets | src/server/switch_command_handler.cpp:333-345 | The loop over explicit targets is the order-keeping filter of the specification |
| CommandHandler.Handler.FindTypedTargets | src/server/switch_command_handler.cpp:346-360 | The loop over the index finds exactly the typed recipients, ascending |
| CommandHandler.Handler.SendAll | src/server/switch_command_handler.cpp:300-303 | The same bytes to every target in turn |
| CommandHandler.Handler.SelectService | src/server/switch_command_handler.cpp:388-412 | The loop ends with an allowed member of the consulted set, or with none only if there is none, in whatever order the set is walked |
| CommandHandler.Handler.HandleServiceRequest | src/server/switch_command_handler.cpp:380-435 | The request is passed on re-encoded to the selected endpoint, or answered with the error reply |
| CommandHandler.Handler.HandleServiceResponse | src/server/switch_command_handler.cpp:437-454 | The response is passed on to the endpoint registered under the source, or dropped |
| CommandHandler.Handler.HandleKickout | src/server/switch_command_handler.cpp:533-552 | Only for admins; who is told and asked to go |
| SwitchService.Service.RegisterEndpoint | src/server/switch_service.cpp:8-156 | Registration in place is one step of the registry, with the result reported and the kickout asked for; refused before the maps are touched when not authenticated |
| SwitchService.Service.EnrolEndpoint | src/server/switch_service.cpp:57-81 | The branch for a new id |
| SwitchService.Service.RegisterAgain | src/server/switch_service.cpp:82-151 | The branch for a known id: takeover check, token, role and type |
| SwitchService.Service.Reconnect | src/server/switch_service.cpp:86-104 | The connection and the token of a known endpoint |
| SwitchService.Service.SwitchRole | src/server/switch_service.cpp:105-140 | Leaves the old index and enters the new one |
| SwitchService.Service.SwitchType | src/server/switch_service.cpp:141-150 | Moves the endpoint between service sets |
| SwitchService.Service.EraseFrom | src/server/switch_service.cpp:114-119 | Erases from a service set and drops the entry when it became empty |
| SwitchService.Service.AllocateEndpointId | src/server/switch_service.cpp:490-499 | Ends with a drawn id that is no key, given that one is drawn |
| SwitchService.Service.Subscribe | src/server/switch_service.cpp:297-328 | Filter sets and subscriber index together, or the error for an empty command |
| SwitchService.Service.Unsubscribe | src/server/switch_service.cpp:330-359 | The same, dropping index entries that become empty |
| SwitchService.Service.Reject | src/server/switch_service.cpp:361-377 | Adds to the blacklists only |
| SwitchService.Service.Unreject | src/server/switch_service.cpp:379-395 | Takes from the blacklists only |
| SwitchService.Service.Forward | src/server/switch_service.cpp:271-282 | Adds to the forward set |
| SwitchService.Service.Unforward | src/server/switch_service.cpp:284-295 | Takes from the forward set |
| SwitchService.Service.DecidesAsFormula | src/server/switch_service.cpp:397-432 | The branches of `is_forwarding_allowed` decide as the closed formula |
| SwitchService.Service.KickoutEndpoints | src/server/switch_service.cpp:467-488 | Exactly the registered targets are told and asked to go, in the order named |
| SwitchService.Service.GetStats | src/server/switch_service.cpp:168-233 | Reports the totals, and on request the lists, of the state |
| SwitchService.Service.CountServiceIds | src/server/switch_service.cpp:193-199 | The nested loop counts the distinct service ids |
| SwitchService.Service.ListIds | src/server/switch_service.cpp:220-224 | One id for each endpoint of a service set |
| Context.SwitchContext.RemoveEndpoint | src/server/switch_context.cpp:39-65 | Removal in place is the removal step, which leaves the subscriber index and an emptied service set |
| Entities.Endpoint.constructor | src/server/switch_endpoint.cpp:4-8 | A new endpoint without filters; its id is written to the connection |
| Entities.Endpoint.UnsubscribeMessages | src/server/switch_endpoint.cpp:69-73 | The loop takes exactly the named types from the whitelist |
| Entities.Endpoint.UnsetForwardTargets | src/server/switch_endpoint.cpp:14-18 | The loop takes exactly the named ids from the forward set |
| Wire.DecodeAfterEncode | src/common/switch_message.cpp:146-176 | Decoding undoes encoding exactly for payload lengths up to 65533 |
| Wire.ForwardingRestores | src/server/switch_command_handler.cpp:299-303 | Decoding and encoding in place restores the received bytes exactly when the length field was neither 1 nor 2 |
| Wire.ConvertToNetworkMessage | src/common/switch_message.cpp:146-160 | The length field in the buffer: plus two if not 0, in 16-bit arithmetic, big-endian |
| Wire.FromNetworkMessage | src/common/switch_message.cpp:162-176 | Its counterpart |
| Counterexamples.ShortLengthChanges | src/common/switch_message.cpp:172-174 | A length field of 1 is sent on as 3 |
| Counterexamples.LongLengthVanishes | src/common/switch_message.cpp:151-154 | A payload of 65534 bytes arrives with length 0 |
| Wire.SendCommandMessage | src/libswitch_client/sc_command_handler.cpp:198-234 | Header, extension and payload, in this order |
| Wire.FrameReceived | src/common/switch_message.cpp:162-176 | The receiver sees command, flags, extension and payload, and the true length exactly up to 65533 bytes |
| Wire.FrameBytes | src/libswitch_client/sc_command_handler.cpp:198-234 | The four header bytes: command, flags, and the length in network order, counting its own two bytes unless it is 0 |
| Wire.PublishLayout | src/common/switch_message.h:55-61 | A publish with a type or targets, byte by byte: command 10, each field at its offset in the host's order |
| Wire.PlainLayout | src/libswitch_client/sc_command_handler.cpp:124-144 | A plain publish: command 9 and the data |
| Wire.ServiceLayout | src/common/switch_message.h:45-50 | A service request, byte by byte: command 11, each field at its offset |
| Wire.ServiceHeaderRead | src/common/switch_message.cpp:109-113 | The fields are read from the same offsets |
| Wire.ResponseBit | src/common/switch_message.h:76-88 | The response flag is the top bit of the flag byte, and setting it leaves the others |
| Wire.Publish | src/libswitch_client/sc_command_handler.cpp:124-144 | Which frame a publish is, with and without targets and type |
| Wire.PublishRoundTrip | src/libswitch_client/sc_command_handler.cpp:124-139 | For every target list and data up to 65533 bytes in all, the server reads back the type, source, count and targets that the client wrote |
| Wire.PayloadKeepsTargets | src/common/switch_message.cpp:77-86 | The payload shown is the targets followed by the data; the data alone exactly when there are no targets |
| Wire.PlainPayload | src/common/switch_message.cpp:70-94 | The payload of any other command is everything behind the header |
| Wire.ResponsePayload | src/common/switch_message.cpp:76-86 | So is that of the answer to a publish |
| Wire.ReadTargets | src/server/switch_command_handler.cpp:334-335 | The targets are read in order from the buffer |
| Wire.RequestService | src/libswitch_client/sc_command_handler.cpp:146-160 | The request frame, with a drawn session id if none is given |
| Wire.RequestRoundTrip | src/libswitch_client/sc_command_handler.cpp:146-154 | Server and service read the header and the data that the requester wrote |
| Wire.Reply | src/libswitch_client/sc_command_handler.cpp:455-463 | The reply built in the request's own buffer |
| Wire.ReplyRoundTrip | src/libswitch_client/sc_command_handler.cpp:455-463 | A reply arrives with the service header of its request untouched, flagged, with the error code and the text where the requester looks |
| ClientProtocol.PublishUnderstood | src/server/switch_command_handler.cpp:313-363 | A client's publish is complete, and goes to the targets the client named, with its type; without targets by the index or as the fallback |
| ClientProtocol.RequestAnnounces | src/libswitch_client/sc_command_handler.cpp:146-154 | A client's request is taken as a service request with exactly the header that the client wrote |
| ClientProtocol.ReplyAnnounces | src/libswitch_client/sc_command_handler.cpp:455-463 | Whatever a service of the client library answers to a request passed on to it, the server sees a response with the header of that request |
| Md5.DigestOfChunks | src/common/utils/md5.h:40-47 | However a message is cut into `update` calls, the digest is that of RFC 1321 for the whole |
| Md5.MD5.Update | src/common/utils/md5.cpp:251-284 | Keeps the invariant: `state` is the fold over the complete blocks, `buffer` holds the unprocessed tail, the two counter words are the bit length mod 2^64; the message grows by the input |
| Md5.MD5.Finalize | src/common/utils/md5.cpp:298-330 | Stores the digest of the message; a second call changes nothing |
| Md5.MD5.Pad | src/common/utils/md5.cpp:306-317 | After padding and length the message is the padded message of RFC 1321, and the buffer is empty |
| Md5.MD5.Transform | src/common/utils/md5.cpp:161-245 | The 64 unrolled steps with rotating arguments are the four indexed rounds of section 3.4 of RFC 1321, for every state and block |
| Md5.MD5.CountBits | src/common/utils/md5.cpp:257-260 | The counter with its carry test is exact mod 2^64 |
| Md5.MD5.TransformBlocks | src/common/utils/md5.cpp:273-275 | The block loop digests all whole blocks and stops at the tail |
| Md5.MD5.TransformAll | src/common/utils/md5.cpp:269-275 | So it does after completing the buffered block |
| Md5.MD5.constructor | src/common/utils/md5.cpp:103-132 | A new digest is that of the empty message so far |
| Md5.MD5.FromText | src/common/utils/md5.cpp:111-116 | The one-shot form gives the digest of the text |
| Md5.MD5.Encode | src/common/utils/md5.cpp:148-156 | Words to bytes, on any length that is a multiple of 4 |
| Md5.MD5.Decode | src/common/utils/md5.cpp:137-142 | Bytes to words |
| Md5.CounterAdvances | src/common/utils/md5.cpp:257-260 | Carry test and wrapped sums advance the bit count exactly |
| Md5.IndexFromCount | src/common/utils/md5.cpp:254-254 | The low counter word alone gives the buffer position |
| Md5.PadReaches56 | src/common/utils/md5.cpp:310-313 | For every total length the pad has 1 to 64 bytes and ends at 56 mod 64 |
| Md5.LoopTestExact | src/common/utils/md5.cpp:274-274 | The 32-bit loop test is the true one at every block start if and only if the length leaves room below 2^32 |
| Counterexamples.LoopTestWraps | src/common/utils/md5.cpp:274-274 | A length on which it is not |
| Rfc1321.FoldConcat | src/common/utils/md5.cpp:266-283 | Digesting a concatenation is digesting its parts in turn, block-aligned |
| Rfc1321Laws.FSelects | src/common/utils/md5.cpp:61-63 | F selects bits: those of y where x has ones, those of z elsewhere, for all words and every set of positions |
| Rfc1321Laws.GSelects | src/common/utils/md5.cpp:65-67 | G selects by z: the bits of x, or those of y |
| Rfc1321Laws.HIsParity | src/common/utils/md5.cpp:69-71 | H is the parity of the three bits |
| Rfc1321Laws.IFlips | src/common/utils/md5.cpp:73-75 | I keeps the bits of y where x has zeros and z ones, and turns them over everywhere else |
| Rfc1321Laws.RotateIsCyclic | src/common/utils/md5.cpp:78-80 | Rotating by n places is n times doubling the word and bringing the pushed-out bit round |
| Rfc1321Laws.PaddedMeans | src/common/utils/md5.cpp:306-317 | A padded message: the message, a 1 bit, the fewest zeros, the length in bits modulo 2^64 as eight bytes, low ones first |
| Rfc1321Abc.DigestOfAbc | src/common/utils/md5.cpp:161-245 | The digest of "abc" is the one that RFC 1321 prints, 900150983cd24fb0d6963f7d28e17f72 |
| LittleEndian.DecodeEncode | src/common/utils/md5.cpp:137-156 | Decoding undoes encoding |
| LittleEndian.EncodeDecode | src/common/utils/md5.cpp:137-156 | Encoding undoes decoding on every length that is a multiple of 4 |

## Left out

- TCP, the event loop, timers, heartbeats and the splitting of the byte stream: they are in the EventLoop library, which is not part of this model.
- JSON and protobuf payloads: the model starts from decoded commands and their texts are not modelled; the protobuf side is unimplemented stubs.
- The texts of results and of the echo, and the info, endpoint-info, setup and reload commands of a registered sender: a command of this kind changes no view of the registry; of a result only the command, the error code and the published total are kept.
- Access codes and `setup`: whether a code is right is the guard `authorized` of a registration, whose error is the same for every role.
- Token generation: a token is an opaque value supplied by the caller; random draws are an oracle in 1 to 65535.
- SwitchService.Service.AllocateEndpointId: is given draws of which one is free; that the source of randomness ever yields one is not a property of the code.
- Byte counters, uptimes and the other texts of the statistics.
- CommandHandler.Handler.HandleCommand: is given a frame that holds as many targets, or as long a service header, as its command announces; the code reads beyond shorter frames without a check.
- Md5.MD5.Update: is stated for lengths on which the loop test does not wrap; beyond them the code reads past its input.
- The hexadecimal form of the digest, printing and dumping, consoles, options and configuration files.
- Callbacks and mirror sets of the client; the answer of a service is a parameter of its reply.
- Services.ResponseReachesRequester: an id that is reused after its owner closed gets the responses meant for the old owner; the lemma says so by naming the id, and the connection only while it is open.
