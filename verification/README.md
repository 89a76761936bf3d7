# go-stream-tunnel: session machinery, naming and routing

A Dafny model of the tunnel server's session handling and of the naming and
routing functions that decide where a request goes.

The server lets clients connect over TLS, keeps one connection per client in a
pool, and keeps a registry of the host names and TCP listeners of each client.
Several handlers, the HTTP/2 transport and the operator change both at once.

| modules | what they model |
|---|---|
| `Text`, `NetAddr`, `Proto` | Go's string functions, `net.SplitHostPort`, `trimPort`, `NormalizeAddress`, subdomain labels and full hosts |
| `Base32`, `IdText` | base32 (section 6 of RFC 4648), chunked printing and forgiving parsing of client identifiers |
| `Registry` | the registry as a class over two maps, and its operations as functions |
| `World`, `ServerObjects` | pool, registry and sockets as one value, what every operation does to it when it runs alone, and the classes whose methods are proved to do that |
| `Tunnels` | what `addTunnels` does for every order of the request's map |
| `Lifecycle` | the server as a step machine: one step for each critical section or outside event, any number of handlers, any interleaving |
| `Sessions`, `Listeners`, `Handshakes`, `Anomalies` | what holds of connections, registrations and listeners in every run, what a registration has to do with the handshake behind it, and two runs that show where the obvious invariants fail |
| `Solo`, `Alone`, `Healing` | one operation without interference: it can be taken to its end, every such run ends as the operation does, and an attempt heals a stale registration |
| `Draining` | from every reachable state all handlers can come to their end |
| `Sequential` | operations one after the other as a single map of sessions |
| `ClientConfig`, `Routing` | completing a client's configuration, its request and dial targets, and the way from a Host header to a dialled address |
| `Replay` | host sniffing: the tee, the buffer and the replayed stream |
| `Reconnect` | the client's reconnect loop, alone and interleaved with cancellation |

How the concurrent model is cut: a handler goes through subscription, `AddConn`,
handshake, one step for each tunnel, `set`, and rejection. Removing a pool entry
is a step that closes the connection and deletes the entry, a step that clears
the registry, and a step for each listener closed; the pool's mutex is held over
all of them, and no other step that needs it is enabled meanwhile. Steps that
need only the registry's mutex, or none, are. The outcomes of `net.Listen`,
pings, dials, handshakes and `CanTakeNewRequest`, and the iteration order of Go
maps, are arbitrary.

Where the code and its comments differ, the model follows the code:

* httphost.go:20 calls `httpSlugFromHost` the exact inverse of `httpFullHost`;
  it is a left inverse (`Proto.SlugOfFullHost`), and a right inverse only for names
  under the base domain (`Proto.FullHostOfSlug`).
* README.md:84 gives `server_addr` a default port and README.md:88 says that
  `remote_addr` defaults to the local port. There is no default port
  (`NetAddr.NoDefaultPort`), and the default for `remote_addr` exists only for a
  local host without a colon (`ClientConfig.DefaultRemote`).
* server.go:676 folds the incoming host because subdomains are in lower case. The
  base domain is part of the name and has to be too (`Routing.BaseMustBeLower`).
* id/id.go:45 promises parsing without '=' left in the text. Padding shielded by
  a hyphen or a space survives, and so do newlines
  (`IdText.ReceiverIrrelevant` says exactly what that changes,
  `IdText.AmbiguousExample` shows a text).

Properties one might expect that do not hold of the code, with a lemma that shows
an input or a run, and the exact condition under which they do:

| expected | fails in | exactly when it holds |
|---|---|---|
| the connection that registered a client is still pooled | `Anomalies.RegisteredNotConnected` | `Sessions.RegistrationOutlives` |
| a registered client is connected | `Anomalies.RegisteredNotConnected` | `Sessions.ConnectedExactly` |
| a connected client is connected through the connection that registered it | `Anomalies.ConnectedThroughAnother` | `Sessions.RegistrationOutlives` |
| a rejecting handler closes its own connection | `Anomalies.RejectClosesSuccessor` | `Sessions.RejectExactly` |
| `trimPort` is idempotent | `NetAddr.TrimPortNotIdempotent` | `NetAddr.TrimPortTwice` |
| `NormalizeAddress` is idempotent | `NetAddr.NormalizeLosesBrackets` | `NetAddr.NormalizeTwice` |
| a wildcard address reaches its own tunnel | `Routing.MisdialledExample` | `Routing.WildcardRouting` |
| an accepted text stands for one identifier | `IdText.AmbiguousExample` | `IdText.ReceiverIrrelevant` |
| nothing connects after cancellation | `Reconnect.LateConnection` | `Reconnect.LateExactly` |

## Model

| member | source | states |
|---|---|---|
| `Sessions.RegistrationOutlives` | pool.go:148-154 | In every reachable state a registration goes back to a handler of that client that has finished; that handler's connection is still pooled if and only if it was pooled when the item was set and no clear of that item is pending; it is closed if and only if it is not pooled |
| `Sessions.ConnectedExactly` | pool.go:88-154 | In every reachable state a client, registered or not, is pooled if and only if some connection of its that got through `AddConn` is not closed |
| `Sessions.RegistrationTraced` | server.go:350-357 | The same over runs: some step k of the run is the accepted `set` that put the current item, by the handler on record, and the item has stood after every step since; that handler's connection is pooled now if and only if it was pooled just before step k and its removal is not about to clear the item |
| `Sessions.OriginTraced` | registry.go:116-151 | The item a client has after a run was there from the start and has stood throughout, or was put by an accepted `set` of the handler on record and has stood since, its connection pooled then or not as recorded |
| `Sessions.ItemStep` | registry.go:116-177 | An item that is there after a step was there before it with the same origin, or the step is the accepted `set` that put it |
| `Handshakes.ItemIsAskedFor` | server.go:254-525 | In every reachable state a registered client holds exactly what the handshake of the handler that put its item asked for: a full host for each HTTP tunnel and a listener for each TCP tunnel, none of which the server objects to |
| `Handshakes.HostsAreAskedFor` | server.go:478-501 | In every reachable state the hosts of a registered client are exactly the names label.base of the HTTP tunnels its handshake asked for, each a valid label under a base domain that is not empty |
| `Handshakes.AskStep` | server.go:461-507 | Every step keeps this, and that a handler that opens listeners has collected what it asked for up to what is left |
| `Sessions.ConnectionConservation` | pool.go:88-124 | Every accepted connection is, at all times, in exactly one of three conditions: held by its handler, stored in the pool, closed; and it is stored under no key but its client's |
| `Sessions.NothingDropped` | pool.go:46-124 | No step drops or overwrites a pool entry without closing its connection, and no closed connection is reopened |
| `Sessions.EvictionIsExact` | pool.go:67-71 | A reader that found a connection unusable removes that very connection, or nothing if the entry was replaced between the two locks |
| `Sessions.RejectExactly` | server.go:382-387 | A rejecting handler closes whatever connection is pooled for its client; it is its own if and only if its own is not closed yet |
| `Anomalies.RegisteredNotConnected` | server.go:350-357 | A reachable state, with nobody in the pool, in which a client is registered but not pooled, and neither is the connection that registered it: it was lost between handshake and `set` |
| `Anomalies.ConnectedThroughAnother` | pool.go:88-113 | A reachable state in which a registered client is pooled through another connection than the one that registered it |
| `Anomalies.RejectClosesSuccessor` | server.go:384 | A reachable state in which a rejecting handler closes the open connection of its successor |
| `Anomalies.LateEviction` | pool.go:46-71 | A reachable state in which an eviction comes after the connection it is for was replaced, and does nothing |
| `Listeners.Conservation` | server.go:454-525 | In every reachable state each listener ever opened is in exactly one place, exactly once: a handler's batch, an item, the pool's close list, an item handed out by `Unsubscribe`, or closed |
| `Listeners.OpenListeners` | server.go:118-138 | No listener is closed twice; with nothing in flight the open listeners are exactly those of items and of handed-out items |
| `Listeners.RegisteredListenersLive` | registry.go:116-177 | A listener of a registered item was opened, is not closed, and belongs to no other client |
| `Listeners.StepLocates` | server.go:454-525 | Every step of the server keeps a placement of all listeners: it moves, creates or closes them without losing or duplicating one |
| `Draining.CanDrain` | server.go:214-388 | From every reachable state some continuation reaches a state in which the mutex is free, every handler has finished, every `Unsubscribe` has returned and nothing is in flight |
| `Draining.HolderCanMove` | pool.go:148-154 | In every reachable state in which the pool's mutex is held, its holder can take a step |
| `Draining.FinishHandler` | server.go:214-388 | With the mutex free every handler can be taken to its end by its own steps, no other handler moving |
| `Lifecycle.ReachableInv` | pool.go:88-154 | In every reachable state pool entries belong to handlers past `AddConn` and hold open connections, handlers and the mutex holder agree, items go back to finished handlers, and the host table is the exact inverse index |
| `Lifecycle.StepInv` | server.go:214-388 | Every critical section of handlers, pool and registry keeps that invariant |
| `Lifecycle.MutexExcludes` | pool.go:46-154 | While the pool's mutex is held only its holder takes steps of the pool |
| `Lifecycle.MutexIrrelevant` | registry.go:51-177 | Every other step is possible or not whoever holds the pool's mutex and whatever is pooled, registered or closed: the place of the handler alone decides |
| `Healing.SelfHealing` | server.go:274-388 | Every run without interference of a pooled attempt of a client with a stale registration that comes to its end, also one in which the handler's own lookup evicts its connection, leaves the item void, the client unpooled, the connection and all stale listeners closed, and all other items untouched; no `set` of that client is then refused as an overwrite |
| `Healing.StaleAttempt` | registry.go:130-132 | A whole attempt of a client that is registered but not pooled clears the registration, closes its listeners and the new connection, and leaves the pool as it was, whatever tunnels it brings |
| `Healing.HealedAttempt` | pool.go:115-124 | The next attempt is decided on its merits: it ends connected if and only if its tunnels can be built and none of its hosts is left in the host table, which in an indexed registry means that no other client owns one; it then holds exactly its own batch |
| `Solo.SoloHandle` | server.go:214-388 | From any state with the pool free, for all outcomes outside, the steps of a new connection alone can be taken to the end, and then add up to `handleClient` as one operation |
| `Alone.LoneRun` | server.go:214-388 | Conversely every run of a new connection without interference that comes to its end, its own pool lookups included, is `handleClient` as one operation for some outcomes outside |
| `Alone.StepExplained` | server.go:214-388 | Each step of such a run: what is left to do after it leads only where what was left before it could lead |
| `Alone.LoneUnsubscribe` | server.go:529-532 | Every run of a single call of `Unsubscribe` to its end is the operation, and hands out the item it finds |
| `Solo.SoloUnsubscribe` | server.go:529-532 | The critical sections of `Unsubscribe` can be taken with nothing in between; they add up to the operation as a whole and hand out the item found after the connection was deleted |
| `Solo.SoloDrop` | pool.go:67-86 | So do those of `MarkDead` and of an eviction, which close the entry and change nothing else |
| `Healing.HealingStep` | pool.go:148-154 | Each step of such an attempt, its own lookups included, stays on the way from a pooled handler with a stale item to a void item with every stale listener closed |
| `Solo.SoloOpening` | server.go:460-507 | The per-tunnel steps of one handler add up to the loop of `addTunnels` |
| `Sequential.HandleRefines` | server.go:214-388 | A whole `handleClient` maps sessions to sessions as the one-map specification says, and a client is pooled if and only if its item is non-void, before and after |
| `Sequential.UnsubscribeRefines` | server.go:529-532 | `Unsubscribe` removes exactly that client from the map of sessions |
| `Sequential.DeleteRefines` | pool.go:115-124 | `DeleteConn` ends exactly that client's session |
| `Sequential.RunRefines` | server.go:214-532 | Over every sequence of operations pool and registry implement one map from subscribed clients to sessions |
| `Sequential.HostsFreeMeans` | registry.go:134-139 | The registry's host table answers whether some connected client serves one of the hosts |
| `Tunnels.AllOrNothing` | server.go:454-525 | On any error registry, pool and the set of open listeners are as before; on success the item is the batch and its listeners are open; it succeeds if and only if every tunnel is acceptable and the registry takes the batch |
| `Tunnels.OrderIrrelevant` | server.go:461-507 | Success and the resulting host table depend on the tunnels and on which listeners open, never on the order of the map; without TCP tunnels on the tunnels alone |
| `Tunnels.BuildExactly` | server.go:461-506 | The loop succeeds if and only if every tunnel is acceptable, and has then collected every host and listener |
| `Tunnels.OfferedCounts` | server.go:455-506 | The batch has one host for each HTTP tunnel and one listener for each of the others |
| `ServerObjects.Server.HandleClient` | server.go:214-388 | The method with its gotos brings pool, registry and sockets to the state that the specification of `handleClient` gives, and reports whether the attempt connects |
| `World.ConnectsMeans` | server.go:350-388 | An attempt that connects leaves its own connection pooled and its client registered; every other attempt has its connection closed |
| `ServerObjects.Server.AddTunnels` | server.go:454-525 | The method with its rollback returns the specified error and leaves the specified state |
| `ServerObjects.Server.BuildBatch` | server.go:461-507 | The loop collects what the recursive specification collects, and opens exactly those listeners |
| `ServerObjects.Server.Unsubscribe` | server.go:529-532 | The client leaves pool and registry; the item returned is the one found after its connection was deleted |
| `ServerObjects.Disconnector.Disconnected` | server.go:118-138 | The item becomes void and exactly its listeners are closed, in order |
| `ServerObjects.ConnPool.Close` | pool.go:148-154 | Closing the entry under a key removes the client that the key parses to, closes its connection, clears its item and closes its listeners |
| `ServerObjects.ConnPool.AddConn` | pool.go:88-113 | A live predecessor refuses the newcomer; a dead one is closed and freed first; a failed dial closes the newcomer; otherwise it is stored for its client |
| `ServerObjects.ConnPool.GetClientConn` | pool.go:46-74 | A usable connection is returned and nothing changes; an unusable one is closed and freed |
| `ServerObjects.ConnPool.Evict` | pool.go:67-71 | The second critical section removes the entry only if it still holds what was found |
| `ServerObjects.ConnPool.MarkDead` | pool.go:76-86 | In whatever order the entries are visited, the one that holds the client connection is closed, if there is one |
| `ServerObjects.ConnPool.DeleteConn` | pool.go:115-124 | The client's entry is closed if it has one |
| `ServerObjects.ByIdInsert` | pool.go:92-110 | Storing under a printed key is storing for the client: no other client's entry is touched |
| `ServerObjects.ByIdDelete` | pool.go:150 | Deleting a printed key deletes that client alone |
| `World.IdentifierOfAddr` | pool.go:156-171 | The client recovered from a pool key is the one the key was made for, for every identifier |
| `World.AddrInjective` | pool.go:156-158 | Different clients have different pool keys |
| `World.AddrSplits` | pool.go:156-158 | The key is the printed client and port 443 |
| `World.UnknownAddr` | pool.go:160-171 | Text that is no key stands for 32 zero bytes |
| `World.AddConnOutcomes` | pool.go:88-113 | A live predecessor stays and the newcomer is refused; a dead one is closed, its item void and its listeners closed; then the newcomer takes its place, or is closed and refused if the dial failed |
| `World.CheckExactly` | server.go:462-506 | In terms of protocol, base domain and host alone: when a tunnel needs a listener, under which name it is published, and for which reason it is refused |
| `Registry.RunIndexed` | registry.go:51-177 | After every sequence of operations, failed ones and duplicate hosts in a batch included, a host maps to a client if and only if it is a trimmed host of that client's non-void item |
| `Registry.ReachableOwners` | registry.go:76-177 | From the empty registry: no host has two owners, and every owner is subscribed and has the host in its item |
| `Registry.HostsDetermined` | registry.go:29-34 | The host table is determined by the items |
| `Registry.ClearUndoesSet` | registry.go:153-177 | `clear` after an accepted `set` restores the registry entirely |
| `Registry.ClearLeavesOthers` | registry.go:105-111 | Clearing or unsubscribing a client leaves every host of every other client with its owner |
| `Registry.SetRefuses` | registry.go:126-139 | `set` refuses a client that is not subscribed, else one that has an item, else the first listed host that is taken, each with its own error, in no other case, and then changes nothing |
| `Registry.Table.Subscribe` | registry.go:51-66 | A new client gets a void item; a known one keeps what it has |
| `Registry.Table.Set` | registry.go:116-151 | Refused for an unknown client, a non-void item or an occupied host, with nothing changed; otherwise item and hosts are entered |
| `Registry.Table.Clear` | registry.go:153-177 | A non-void item is returned, its hosts leave the index and the item becomes void; otherwise nothing happens |
| `Registry.Table.Unsubscribe` | registry.go:90-114 | The item and its hosts go and the item, void or not, is returned |
| `Registry.Table.PutHosts` | registry.go:141-145 | Every listed host, duplicates included, points at the client and no other host changes |
| `Registry.Table.DeleteHosts` | registry.go:168-172 | Exactly the trimmed listed hosts leave the index |
| `Registry.Table.FindOccupied` | registry.go:135-139 | The first listed host whose trimmed form has an owner |
| `IdText.ParseVariant` | id/id.go:44-90 | Parsing recovers every identifier from its printed form in any letter case, with 0/1/8 for O/I/B, hyphens and spaces added or removed anywhere, and padding at both ends, whatever the receiver held |
| `IdText.ParsePrint` | id/id.go:34-66 | Parsing undoes printing |
| `IdText.PrintInjective` | id/id.go:34-41 | Different identifiers print differently |
| `IdText.PrintedShape` | id/id.go:34-41 | 59 characters: hyphens at every eighth place and nowhere else, base32 letters otherwise |
| `IdText.PrintedText` | id/id.go:34-41 | Every one of the 59 characters: a hyphen at every eighth place, and otherwise the standard's digit for the bits of the identifier |
| `IdText.RefusedForLength` | id/id.go:47-56 | A text is refused for its length if and only if, between the padding at its ends, other than 52 characters are neither hyphens nor spaces |
| `IdText.UnmarshalText` | id/id.go:44-66 | On success the receiver holds the parsed identifier; on either error it is untouched |
| `IdText.ReceiverIrrelevant` | id/id.go:58-65 | An accepted text means one identifier whatever the receiver held if and only if normalization leaves no padding or newline inside it |
| `IdText.FillerAccepted` | id/id.go:47-64 | Fifty digits followed by ==- are accepted, and the last byte of the result is whatever the receiver held |
| `IdText.AmbiguousExample` | id/id.go:47-64 | Such a text, and two receivers for which it means different identifiers |
| `IdText.DecodedLength` | id/id.go:54-65 | An accepted normalized text decodes to at most 32 bytes, and to 32 if and only if it has no padding or newline inside |
| `IdText.ChunkifyUndone` | id/id.go:69-80 | A non-empty text of length n without hyphens and newlines becomes n + (n - 1) / 7 characters; without spaces, un-chunking gives it back |
| `IdText.ChunkifyAt` | id/id.go:69-73 | Which character of the chunked text is which of the original, and where the hyphens are |
| `IdText.NewlineUnchunked` | id/id.go:69-73 | No group of seven is made across a newline |
| `IdText.VariantFolds` | id/id.go:47-52 | However a printed text is written down, folding and un-chunking leave the same characters |
| `Base32.DecodeEncode` | id/id.go:35-58 | Decoding undoes encoding for byte strings of every length, padding included |
| `Base32.RawRoundTrip` | id/id.go:35-58 | The same for the unpadded digits |
| `Base32.EncodeInjective` | id/id.go:35 | Different byte strings have different encodings |
| `Base32.EncodedPadding` | id/id.go:35 | For byte strings of every length the text is the standard's: character i is the one of the standard alphabet that bits 5i to 5i+4 of the input pick, most significant first, zeros past the end, and then only padding to a multiple of eight |
| `Base32.EncodesStandard` | id/id.go:35 | The same for the text before padding |
| `Base32.SurplusIgnored` | id/id.go:58 | Decoding takes the bits of the digits in order; less than a byte of surplus, whatever it is, is ignored |
| `Base32.NewlinesSkipped` | id/id.go:58 | A line feed or carriage return anywhere in the text makes no difference |
| `Routing.HttpRouting` | server.go:679-699 | In every reachable state in which a client is registered whose handshake asked for the tunnels of its configuration, a Host of slug.base in any letter case, with or without a port, leads to that client under that slug, and the client dials exactly that tunnel's address |
| `Routing.AcceptedRouting` | server.go:478-501 | The same from the moment `addTunnels` accepts the request built from the configuration |
| `Routing.RequestOutcome` | server.go:461-507 | A request built from an accepted configuration succeeds if and only if there is a base domain where needed, every listener opens, the client has a void item and no host is taken |
| `Routing.ServerAccepts` | server.go:480-501 | The server's checks object to nothing in a completed tunnel but an HTTP tunnel without a base domain |
| `Routing.BaseMustBeLower` | server.go:676-681 | Some Host header is looked up under the key of a name registered under a base domain if and only if the base domain is in lower case |
| `Routing.RoutedHostIs` | server.go:679 | Every spelling of a registered name, with or without a port, folds to that name |
| `Routing.RoutedExactly` | server.go:679 | A header is folded to a registered name if and only if its host spells the name in some letter case |
| `Routing.KeysApart` | cmd/client/options.go:290-300 | No two tunnels of a configuration share a key of the dial map if one of them is an HTTP tunnel |
| `Routing.HttpDialled` | streamproxy.go:127-135 | The slug of an HTTP tunnel is dialled at that tunnel's address, whatever else is in the map |
| `Routing.TcpRouting` | cmd/client/options.go:273-300 | A started TCP tunnel's remote address is what the server is asked to listen at, and what is reported with it is dialled at the tunnel's local address |
| `Routing.WildcardRouting` | streamproxy.go:137-146 | The tunnel at 0.0.0.0:P is dialled at its own address; reported as [::]:P too, unless an HTTP tunnel has the subdomain P, and then that tunnel is dialled |
| `Routing.MisdialledExample` | streamproxy.go:137-141 | An accepted configuration in which a connection to the TCP tunnel on port 8080, reported as [::]:8080, is dialled to the HTTP tunnel named 8080 |
| `Routing.BracketedKeyAbsent` | utils.go:69 | No key of a dial map has a bracket in it |
| `ClientConfig.CompleteAll` | cmd/client/config.go:103-124 | Accepts, in every order of the map, if and only if each tunnel completes and HTTP subdomains are pairwise distinct; completes all tunnels in place; an error names tunnels that are at fault |
| `ClientConfig.Tunnel.Complete` | cmd/client/config.go:105-123 | The tunnel is completed as the protocol says, or the error of its completion is returned |
| `ClientConfig.Tunnel.CompleteTcp` | cmd/client/config.go:129-150 | The fields of a TCP tunnel after completion, or which of its addresses is bad |
| `ClientConfig.Tunnel.CompleteHttp` | cmd/client/config.go:157-182 | The fields of an HTTP tunnel after completion, or what is wrong with it, in the order checked |
| `ClientConfig.CompletedShape` | cmd/client/config.go:129-182 | A completed tunnel has an address with a colon; a TCP tunnel also a remote address with a colon and without brackets; an HTTP tunnel a valid label |
| `ClientConfig.CompletesExactly` | cmd/client/config.go:105-182 | Which tunnels complete, by protocol, addresses and subdomain or name |
| `ClientConfig.FailsExactly` | cmd/client/config.go:105-182 | Why a tunnel does not complete: the first objection in the order in which the fields are looked at |
| `ClientConfig.CompletedFields` | cmd/client/config.go:129-182 | What completion makes of the fields: normalized addresses, the tunnel's name for a missing subdomain, nothing else |
| `ClientConfig.DefaultRemote` | cmd/client/config.go:138-147 | Without a remote address a TCP tunnel completes if and only if its local host has no colon, with the local port on every interface |
| `ClientConfig.BuildRequest` | cmd/client/options.go:273-288 | Entry by entry in any order, the loop builds the one request that the configuration stands for |
| `ClientConfig.BuildDialMap` | cmd/client/options.go:290-300 | The loop files each tunnel under its key, a later one over an earlier one |
| `ClientConfig.DialMapEntry` | cmd/client/options.go:290-300 | The keys are exactly those of the tunnels, and each leads to the address of a tunnel filed under it |
| `ClientConfig.DialUnshared` | cmd/client/options.go:290-300 | A key that nobody shares leads to its own tunnel, in every order of the map |
| `ClientConfig.LookupOrder` | streamproxy.go:127-154 | The address dialled is the first that is found under the full text, the port, 0.0.0.0 with the port, the host, in this order, or the default |
| `NetAddr.SplitExactly` | utils.go:60 | Splitting yields a host and a port if and only if the text is that pair written out, with brackets or without |
| `NetAddr.TrimPortPlain` | registry.go:179-185 | A name without a colon is its own host, with or without a port |
| `NetAddr.TrimPortExactly` | registry.go:179-185 | The host of a pair written out, if it has one, and every other text unchanged |
| `NetAddr.SplitReasons` | utils.go:60 | Which error a text without a colon, with several, or with an unclosed bracket gives |
| `NetAddr.TrimPortNotIdempotent` | registry.go:179-185 | On `[a:b]:p` trimming twice gives something else than trimming once |
| `NetAddr.TrimPortTwice` | registry.go:179-185 | Trimming twice differs from trimming once if and only if the text is of the form `[h:p]:q` with a non-empty h |
| `NetAddr.NormalizedShape` | utils.go:54-70 | The result is a non-empty host without brackets, a colon and a plain port |
| `NetAddr.NormalizeExactly` | utils.go:60-69 | A pair written out becomes its host, or 127.0.0.1, and its port; nothing else but a number is accepted |
| `NetAddr.AtoiExactly` | utils.go:56 | What counts as a number: a sign or none, and decimal digits within 64 bits |
| `NetAddr.NormalizeTwice` | utils.go:54-70 | Normalizing again changes nothing if the parsed host has no colon, and fails otherwise |
| `NetAddr.NoDefaultPort` | utils.go:54-63 | A text without a colon is accepted if and only if it is a decimal number, and then means that port on the loopback interface |
| `NetAddr.NormalizeLosesBrackets` | utils.go:69 | [::1]:80 is normalized to ::1:80, which is refused |
| `Proto.SlugOfFullHost` | httphost.go:21-32 | The slug is recovered from the full host, for every slug and base domain |
| `Proto.FullHostOfSlug` | httphost.go:21-32 | A host is composed of its slug again if and only if it is a full host under that base domain |
| `Proto.LabelIsPlain` | proto/tunnel.go:33-42 | A valid label is non-empty, in lower case and free of dots, colons and brackets |
| `Proto.LabelExactly` | proto/tunnel.go:33-42 | A label is valid if and only if the regular expression matches it: one of a-z, 0-9, or two of them with up to 61 of those or hyphens in between |
| `Proto.SlugOfOther` | httphost.go:30-32 | A host that is not under the base domain is left alone |
| `Replay.SniffAndForward` | httphost.go:41-65 | For every stream, chunking, read-ahead and schedule of read sizes, what was read after sniffing followed by what is still to come is the original stream; reading stops before the schedule is through only when all of it is out |
| `Replay.PeekHostHeader` | httphost.go:41-52 | However far the parser read, the replay holds the whole original stream; there is no replay if the parser failed; every read of the parser is one read of the connection |
| `Replay.MultiReader.Read` | httphost.go:51 | A read takes bytes off the front of what is pending and loses none; buffered bytes are handed out in full without touching the connection, after that each read is one of the connection with what that reports; the end is reported only when nothing is pending |
| `Replay.TeeReader.Read` | httphost.go:43 | One read of the connection: what it takes is appended to the buffer, no more and no less, and what it reports is reported |
| `Replay.ReplayConn.Read` | httphost.go:63-65 | The connection's reads are the replay's |
| `Reconnect.Cancellation` | client.go:103-181 | Over every interleaving of `Start` with `Stop`, server errors and cancellation at most one connection is established after cancellation, and "already connected" is never returned |
| `Reconnect.LateExactly` | client.go:114-163 | Wherever in a run the context is cancelled, some continuation establishes a connection if and only if the loop is dialling, about to dial, or past the check of the context with no server error on record |
| `Reconnect.LateFrom` | client.go:114-163 | The same for every state that satisfies the invariant of the loop |
| `Reconnect.NeverConnects` | client.go:139-144 | A cancelled loop in any other state establishes nothing, in any run |
| `Reconnect.LateConnection` | client.go:109-114 | A run in which a connection is established, and still open, after the watcher has gone |
| `Reconnect.OnlyLateIsLeft` | client.go:379-392 | Once the watcher has run every connection ever established is closed, except the last one if it was established after cancellation and is still being served |
| `Reconnect.ReconnectRate` | client.go:144-162 | Over every interleaving, disconnects i and j that the loop survived lie at least 5000000000 (j - i) nanoseconds apart, so in a window of T there are at most T / 5000000000 + 1 |
| `Reconnect.StepInv` | client.go:103-181 | The invariant behind these: each step keeps the field `conn` free while the loop is about to connect, every connection closed but the one being served, and the last disconnect survived on record |
| `Reconnect.Client.Start` | client.go:103-163 | The loop survives exactly the rounds that give it no reason to stop, and the first other one decides its error |
| `Reconnect.StartSpaced` | client.go:148-150 | The disconnects one call survives are five seconds apart, the first one also from the last of an earlier call |
| `Reconnect.GivesUpExactly` | client.go:145-150 | After a disconnect the loop gives up for a server error, else for a disconnect less than 5000000000 nanoseconds before, else not |
| `Reconnect.RoundByRound` | client.go:114-163 | A round by the steps of the interleaved machine ends with the very result of `Start`, or goes on with the fields that `Start` leaves |
| `Reconnect.WhoWaits` | client.go:166-181 | `Stop`, the watcher and a server error wait for a dial in progress and for nothing else |
| `Reconnect.StopCloses` | client.go:379-392 | `Stop` closes the connection on record, forgets it, and does nothing else |
| `Reconnect.Client.Connect` | client.go:166-181 | An existing connection is kept and reported; a failed dial changes nothing; otherwise the dialled connection is stored |
| `Reconnect.Client.Settle` | client.go:144-161 | After a disconnect the fields are reset and the time recorded, whether or not the loop gives up |

## Left out

- TLS, HTTP/2 and certificates (`ca/`, `keepalive.go`): a handshake, a ping, `NewClientConn` and `CanTakeNewRequest` are arbitrary outcomes.
- Moving bytes: `proxyConn`, `StreamProxy.Proxy`, `transfer` and `flushWriter` copy sockets in goroutines; `listen` and `handleHTTPConn` are modelled only where they route.
- JSON, YAML, flags, files and the checks on the server address in the loader: the configuration starts as parsed tunnels with distinct pointers.
- `id.New` and `PeerID`: identifiers are arbitrary 32-byte values.
- `http.ReadRequest`: the Host value and the amount read ahead are arbitrary.
- The backoff policy: a dial succeeds or fails. A dial that never returns is a run that stops there.
- `notifyError` and `notifyTunnelInfo`: of these pushes the model keeps only that they look the client up in the pool and may evict it.
- `connPool.Ping` and `Server.Ping`: they change nothing.
- `log/`, `proxy.go`, `proto/controlmsg.go`, the Kubernetes chart, scripts and mocks: easy or without state.
- Text is ASCII: `ToUpper` and `ToLower` fold the letters A to Z only.
- Base32.DecodeEncode: decoding follows the algorithm of Go's encoding/base32, surplus padding and skipped newlines included; that library is not part of the repository, and no lemma claims which malformed texts it accepts.
- Lifecycle.ReachableInv: the ping inside `AddConn` and the dial after it happen within one step, because the pool's mutex is held over both; what a reader found unusable is never forgotten, so an eviction may come arbitrarily late.
- Draining.CanDrain: says that every handler can finish, not that it will; fairness of the scheduler and timeouts are not modelled.
- Replay.MultiReader.Read: a source that returns nothing for ever is allowed, so that the end is reached is not claimed.
- Alone.LoneRun: the lookup that `notifyTunnelInfo` makes after `set` is not part of the attempt; an eviction by it is `Solo.SoloDrop`. Interference between two calls of `Unsubscribe` for one client is left to the invariants.
- Reconnect.OnlyLateIsLeft: HTTP/2's `ServeConn` is taken to close its connection before it returns.
- Reconnect.ReconnectRate: times are those the loop reads from the clock, and a clock that runs backwards only makes the loop give up earlier; the float comparison with 5 seconds is exact nanoseconds here.
