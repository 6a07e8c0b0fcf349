# Wallet-connector bridge: popup RPC transport and EIP-1193 dispatcher

This project models the two pieces of sequential logic of the wallet-connector bridge in Dafny and proves properties of them.

- **The popup RPC transport (`ProviderTransport`).** It talks to a wallet running in a popup window over `postMessage`. Requests are correlated by a fresh id, kept in a callback registry and a pending set, and answered by one inbound message each, or failed all at once when a liveness interval finds the window gone. The transport also keeps a connection state and a stored session.
- **The provider's `request` dispatcher (`SequenceWaasTransportProvider.request`).** It routes EIP-1193 method names to one of four things: a local answer (`eth_chainId`, `eth_accounts`, `wallet_switchEthereumChain`), the transport (`eth_requestAccounts`, `eth_sendTransaction` and the four sign methods), the read-only JSON-RPC client (everything else), or an error. The model also covers `normalizeChainId` and the Ethereum JSON-RPC QUANTITY encoding `eth_chainId` answers with.

The model is functional. Each module and what it holds:

- `values.dfy` (`Values`): JavaScript values as a `Json` datatype, with property access (`Get`, `Nullish`), truthiness (`Truthy`) and the `JSON.stringify`/`JSON.parse` round trip (`Serializable`, `Reparsed`). These carry the source's `response.error`, `response.data.txHash` and `!walletAddress` tests and `saveSession`.
- `chainid.dfy` (`ChainId`): `Number.parseInt` for radix 10 and 16, `normalizeChainId`, `trim`, the QUANTITY encoding, and the round-trip lemmas.
- `transport.dfy` (`Transport`): an immutable `State` and one pure transition per operation or event. Browser effects become fields:
  - `window` is the popup status;
  - `awaitingReady` holds the messages whose `ready` listener is still installed;
  - `posted` logs the `postMessage` calls;
  - `checking` and `intervalsStarted` stand for the liveness interval;
  - `closeTimers` counts the auto-close timeouts;
  - `stored` is local storage;
  - `settled` is the settlement log: correlation id ↦ `Resolved(v)` / `Rejected(reason)`.
- `transport_props.dfy` (`TransportProperties`): the registry/pending invariant and at-most-once settlement over arbitrary event traces, plus the handshake, failure, readiness, auto-close and liveness lemmas.
- `provider.dfy` (`Provider`): the dispatcher as a function from `(provider state, method, params)` to a new state and an `Outcome`. An `Outcome` is one of:
  - `Return` (a local answer);
  - `Throw` (an error);
  - `Await(id, continuation)` (a transport call);
  - `Forward` (a verbatim JSON-RPC forward);
  - `Unmodelled` (see below).

  `Resume` maps the transport's settlement of an awaited id to the end of the call.
- `provider_props.dfy` (`ProviderProperties`): routing, chain switching and response-mapping lemmas, some composed with transport events.

Two values come from the environment and are parameters here. `crypto.randomUUID` becomes an `id` parameter that must be `Fresh` (absent from the registry, the pending set and the settlement log). Whether `window.open` returns a window becomes the `opens` flag. An async continuation that the source runs without yielding to the event loop is part of the same transition.

## Model

| member | source | states |
|---|---|---|
| `ChainId.Normalize` | src/connector/src/SequenceWaasTransportProvider.js:103-108 | numbers and big integers normalise to themselves, `null` throws a TypeError, `undefined` and booleans pass through untouched, and an array or an object without `chainId` gives `undefined` |
| `ChainId.HexStringNormalizes` | src/connector.ts:264-269 | any `0x`-prefixed hex digit string (any case, any leading zeros) normalises to the number its digits denote, read in base 16 |
| `ChainId.DecStringNormalizes` | src/connector/src/SequenceWaasTransportProvider.js:105 | a string without the `0x` prefix is read in base 10: any decimal digit string normalises to its value |
| `ChainId.NegativeDecimalNormalizes` | src/connector/src/SequenceWaasTransportProvider.js:105 | `parseInt` keeps a leading minus sign: `-` followed by decimal digits normalises to the negated value |
| `ChainId.WrappedNormalizesLikeInner` | src/connector/src/SequenceWaasTransportProvider.js:103-104 | `{chainId: x}` normalises exactly like `x` for every value `x`, so nested wrappers unwrap at any depth |
| `ChainId.NoLeadingDigitIsNaN` | src/connector/src/SequenceWaasTransportProvider.js:105 | a string that starts with neither white space, a sign nor a decimal digit (a network name, say) normalises to `NaN` |
| `ChainId.ParseHexDigits` | src/connector.ts:266-269 | `Number.parseInt(s, 16)` on `0x` followed by hex digits reads the whole digit string |
| `ChainId.NormalizeRoundTrip` | src/connector/src/SequenceWaasTransportProvider.js:103-107 | for every n ≥ 0, `normalize(quantity(n))`, `normalize(decimal(n))`, `normalize(n)`, `normalize(bigint n)` and the `{chainId: …}`-wrapped strings all give n |
| `ChainId.QuantityWellFormed` | src/connector/src/SequenceWaasTransportProvider.js:32-34 | the `eth_chainId` encoding is a QUANTITY: `0x`, lower-case hex digits, no leading zero, and `0x0` exactly for zero |
| `ChainId.HexDigitsValue` | src/connector.ts:171-173 | the hex digits of a chain id read back as that chain id |
| `Transport.Init` | src/connector/src/ProviderTransport.js:38-44 | construction loads a stored session and is then `connected`; with nothing stored it is `disconnected`; the invariant holds and nothing is pending |
| `Transport.UpdateWalletCheck` | src/connector/src/ProviderTransport.js:16-22 | after the update the liveness flag is on exactly when the registry is non-empty, and at most one interval is created |
| `Transport.SetCallback` | src/connector/src/ProviderTransport.js:5-9 | an observed `set` adds the entry and leaves the liveness flag on |
| `Transport.DeleteCallback` | src/connector/src/ProviderTransport.js:10-14 | an observed `delete` removes the entry and leaves the flag on iff entries remain |
| `Transport.AutoCloseFires` | src/connector/src/ProviderTransport.js:54-61 | a firing auto-close empties the window only if nothing is pending at that moment, and never touches registry, pending set or settlements |
| `Transport.Register` | src/connector/src/ProviderTransport.js:75-77 | a fresh id enters both the pending set and the registry, and the liveness check is on |
| `Transport.Connect` | src/connector/src/ProviderTransport.js:63-94 | connected with a session: returns the cached address and changes nothing; otherwise `connecting`, one fresh id in both registry and pending, settlements and session unchanged, and the handshake begun as `BeginHandshake` states; keeps the invariant |
| `Transport.BeginHandshake` | src/connector/src/ProviderTransport.js:69-93 | the handshake message is posted at once to an open window, queued behind `ready` on a freshly opened one with nothing posted, and neither on a blocked popup (which leaves no window); the id is registered and pending in every case |
| `Transport.SendRequest` | src/connector/src/ProviderTransport.js:95-108 | not connected: rejects with "Not connected…" and changes nothing; open window: registers and posts the request at once; closed window: registers and queues it on a fresh window; blocked popup: registry and pending as before, the id rejected with the pop-up error; keeps the invariant |
| `Transport.PostRequest` | src/connector/src/ProviderTransport.js:109-122 | the `sendMessage` step: post, queue on a fresh window, or on a blocked popup remove the id from both registry and pending and reject |
| `Transport.RunCallback` | src/connector/src/ProviderTransport.js:77-91 | the id leaves the pending set; a handler that returns settles it, and schedules an auto-close exactly when nothing is left pending on an open window; an accepted handshake sets `connected` and the in-memory session, and stores its JSON copy only when `JSON.stringify` accepts the address; when it does not, nothing settles, is stored or is scheduled; any other handshake answer sets `disconnected` |
| `Values.ReparsedRecord` | src/connector/src/ProviderTransport.js:45-51 | the stored session reads back its address as `JSON.parse(JSON.stringify(…))` gives it, and is truthy |
| `Transport.ResponseId` | src/connector/src/ProviderTransport.js:204-205 | an inbound payload names a correlation id exactly when it is an object whose `id` is a string |
| `Transport.HandleMessage` | src/connector/src/ProviderTransport.js:202-210 | foreign origins and payloads without a registered id are dropped; `ready` flushes the queue; otherwise the matching handler runs and its id leaves the pending set; if the handler returns, the id also leaves the registry and settles; if it throws, registry and settlements stay as they were; `Consistent` is kept |
| `Transport.HandleWalletClosed` | src/connector/src/ProviderTransport.js:170-181 | every registered id settles with the handler's "Wallet window was closed" outcome; registry and pending end empty and the window null; the liveness flag is left as it was |
| `Transport.ClosedOutcome` | src/connector/src/ProviderTransport.js:172-178 | the forced failure is what each handler does with an `{error: {message: "Wallet window was closed"}}` response, so it is always a rejection |
| `Transport.Disconnect` | src/connector/src/ProviderTransport.js:182-192 | `disconnected`, session cleared in memory and in storage, `getWalletAddress()` undefined, then everything pending fails as in `handleWalletClosed` |
| `Transport.PollTick` | src/connector/src/ProviderTransport.js:25-29 | a firing on a missing or closed window leaves registry and pending set empty, the window null, and every id registered before it rejected; earlier settlements are kept and the invariant holds |
| `TransportProperties.StepPreservesInv` | src/connector/src/ProviderTransport.js:107-123 | every event in which no handler throws keeps registry keys equal to the pending set, registered ids unsettled, and the liveness check on while the registry is non-empty |
| `TransportProperties.StepPreservesConsistent` | src/connector/src/ProviderTransport.js:75-80 | every event, a throwing handler included, keeps pending ids registered, registered ids unsettled and the liveness check on while the registry is non-empty |
| `TransportProperties.UnserialisableAddressBreaksJoin` | src/connector/src/ProviderTransport.js:78-81 | an accepted handshake whose address `JSON.stringify` refuses leaves the id registered but not pending and unsettled, storage untouched, a session in memory; registry and pending set no longer coincide; the liveness sweep later rejects the id as refused and sets `disconnected` |
| `TransportProperties.RunPreservesInv` | src/connector/src/ProviderTransport.js:113-115 | the invariant holds at every event boundary of every run in which no handler throws |
| `TransportProperties.RunPreservesConsistent` | src/connector/src/ProviderTransport.js:202-209 | `Consistent` holds at every event boundary of every run |
| `TransportProperties.MessageSettlesOnce` | src/connector/src/ProviderTransport.js:205-208 | an inbound message settles at most the id it runs; that id leaves the registry only if it settled |
| `TransportProperties.ClosedSettlesOnce` | src/connector/src/ProviderTransport.js:179-180 | the wallet-closed sweep settles exactly the registered ids and keeps earlier settlements |
| `TransportProperties.SendSettlesOnce` | src/connector/src/ProviderTransport.js:113-116 | a send settles at most its own fresh id, the one a blocked popup rejects |
| `TransportProperties.StepSettlesOnce` | src/connector/src/ProviderTransport.js:202-209 | per event, throwing handlers included: settled ids keep their settlement, only registered (or freshly drawn) ids settle, and an id leaving the registry has settled |
| `TransportProperties.RunKeepsSettlements` | src/connector/src/ProviderTransport.js:206-208 | over any run, throwing handlers included, no id is settled twice |
| `TransportProperties.RunSettlesWhatLeaves` | src/connector/src/ProviderTransport.js:170-180 | over any run, throwing handlers included, an id that leaves the registry has settled |
| `TransportProperties.AcceptedHandshakeThenCachedConnect` | src/connector/src/ProviderTransport.js:63-68 | after an accepted handshake: `connected` with the address, and any later `connect` returns that address and changes nothing; with a serialisable address the session is stored, the id gone and resolved with the address; otherwise nothing is stored and the id stays unsettled |
| `TransportProperties.SessionSurvivesReload` | src/connector/src/ProviderTransport.js:38-51 | the session `saveSession` stores after an accepted handshake is what `loadSession` restores: a new transport over that storage is connected with the address as JSON reparses it (a string unchanged); a non-serialisable address leaves storage as it was; after `disconnect` the storage restores nothing |
| `TransportProperties.RefusedHandshake` | src/connector/src/ProviderTransport.js:86-90 | any non-accepting answer, or the forced wallet-closed error, sets `disconnected` and rejects with "Connection rejected" |
| `TransportProperties.BlockedHandshakeRejectedByLivenessCheck` | src/connector/src/ProviderTransport.js:92 | a blocked popup during `connect` leaves the handshake registered with the check on; the next check rejects it with "Connection rejected" |
| `TransportProperties.SecondResponseIgnored` | src/connector/src/ProviderTransport.js:205-209 | once an id's handler has run and returned, another response with the same id changes nothing; a handler that threw stays registered for the next one |
| `TransportProperties.ResponseSettlement` | src/connector/src/ProviderTransport.js:124-129 | an inbound response rejects with `error.message` when `error` is truthy, otherwise resolves with `result`, and the connection state is untouched |
| `TransportProperties.LivenessCheckFailsAllPending` | src/connector/src/ProviderTransport.js:26-28 | with requests pending and no open window, the check rejects every pending id and empties registry, pending set and window |
| `TransportProperties.DisconnectForgetsEverything` | src/connector/src/ProviderTransport.js:183-196 | after `disconnect`: `disconnected`, address undefined, storage empty, nothing pending, every pending id rejected, invariant kept |
| `TransportProperties.ClearLeavesLivenessCheckRunning` | src/connector/src/ProviderTransport.js:179 | `clear()` bypasses the observed delete: with requests pending, the check stays installed over an empty registry, and its later firings change nothing |
| `TransportProperties.TwoRegistrationsOneInterval` | src/connector/src/ProviderTransport.js:24-30 | turning the check on twice creates one interval |
| `TransportProperties.FreshWindowWaitsForReady` | src/connector/src/ProviderTransport.js:138-152 | the request that opens a fresh window is not posted until `ready` comes from the wallet origin, then after the messages queued before it; `ready` from any other origin posts nothing |
| `TransportProperties.SecondRequestBeforeReadyPostedAtOnce` | src/connector/src/ProviderTransport.js:110-120 | a second request on a popup that has not said `ready` is posted at once, while the first still waits in the `ready` queue |
| `TransportProperties.OpenWindowPostsAtOnce` | src/connector/src/ProviderTransport.js:119-121 | with the window open, the request is posted immediately |
| `TransportProperties.StaleMessagePostedToNextWindow` | src/connector/src/ProviderTransport.js:144-152 | a `ready` listener outlives its window: after the check fails its request, its message is still posted to the next window along with the new one |
| `TransportProperties.LastAnswerSchedulesClose` | src/connector/src/ProviderTransport.js:52-61 | on an open window, the answer that empties the pending set schedules one auto-close whose firing closes the window, unless a request was sent in between; an answer that leaves requests pending schedules none |
| `TransportProperties.Acceptance` | src/connector/src/ProviderTransport.js:79 | test fixture, not a model of the line: a payload that passes the acceptance test, names its id and carries the address |
| `Provider.NewProvider` | src/connector/src/SequenceWaasTransportProvider.js:89-101 | construction binds the initial chain id, binds the read-only client to the network the directory names for that id (none when it has no entry), and starts a transport satisfying the invariant, connected iff a session is stored |
| `Provider.SwitchChain` | src/connector/src/SequenceWaasTransportProvider.js:23-31 | returns null exactly when the argument normalises to a non-negative integer, which becomes the chain id; throws a TypeError exactly for absent or nullish arguments and `null` ids, leaving the provider unchanged; otherwise the client is rebound to the directory name of the normalised number, or to none for `NaN` and non-numbers, and the chain id changes only on success; the transport is never touched |
| `Provider.Resume` | src/connector.ts:189-238 | a refused `connect` is re-thrown unchanged; an accepted one yields exactly one account, which `getAddress` accepted, or throws; a send or sign failure is only ever its fixed message; only a send falls through to the forward |
| `Provider.Disconnect` | src/connector/src/SequenceWaasTransportProvider.js:86-88 | the transport ends `disconnected` with no address, nothing pending and storage cleared; chain id and read-only client are kept; the invariant is preserved |
| `Provider.Request` | src/connector.ts:141-242 | an id must be fresh only when a handshake or a connected send or sign draws one; unmatched methods forward verbatim with `params ?? []`; `eth_chainId`, `eth_accounts` and `wallet_switchEthereumChain` never reach the transport; send and sign without params throw "No params" |
| `ProviderProperties.AccountsIsPureRead` | src/connector/src/SequenceWaasTransportProvider.js:35-44 | `eth_accounts` leaves everything unchanged; it answers `[]` iff no address is cached, the one cached address iff `getAddress` accepts it, and throws for a cached value that is not an address |
| `ProviderProperties.RequestAccountsConnectsOnlyWithoutAddress` | src/connector/src/SequenceWaasTransportProvider.js:7-21 | `connect` is called only when no address is cached; a cached address is answered directly, or throws if `getAddress` refuses it; a `connect` rejection is re-thrown unchanged |
| `ProviderProperties.DisconnectThenReconnects` | src/connector.ts:256-258 | after `disconnect`, `eth_accounts` answers `[]`, `eth_requestAccounts` awaits a new handshake, and `eth_sendTransaction` fails with the fixed send error |
| `ProviderProperties.RequestAccountsAfterHandshake` | src/connector.ts:142-155 | on a fresh connection, `eth_requestAccounts` answers the accepted handshake's address when `getAddress` accepts it, and throws otherwise (an acceptance without an address, say); with an address `JSON.stringify` refuses, the call stays awaiting and the handshake registered |
| `ProviderProperties.SwitchThenChainId` | src/connector.ts:157-173 | a switch to an argument normalising to n ≥ 0 returns null without touching the transport, binds the client to n's network, and `eth_chainId` then returns the QUANTITY of n |
| `ProviderProperties.SwitchByQuantityRoundTrip` | src/connector/src/SequenceWaasTransportProvider.js:23-34 | switching with `[{chainId: quantity(n)}]` sets the chain to n, and `eth_chainId` answers `quantity(n)` |
| `ProviderProperties.SwitchByDecimalRoundTrip` | src/connector/src/SequenceWaasTransportProvider.js:23-34 | switching with `[{chainId: decimal(n)}]` sets the chain to n, and `eth_chainId` answers `quantity(n)` |
| `ProviderProperties.ChainIdAnswerRoundTrip` | src/connector.ts:171-173 | `eth_chainId` answers a well-formed QUANTITY, and switching to that answer leaves the chain unchanged |
| `ProviderProperties.FailedSwitchStillRebindsClient` | src/connector/src/SequenceWaasTransportProvider.js:26-29 | every argument that normalises to `NaN` (a network name such as "mainnet" among them) rebinds the client to no network before the call fails, while the chain id and the `eth_chainId` answer stay as they were |
| `ProviderProperties.SendResponseMapping` | src/connector/src/SequenceWaasTransportProvider.js:49-61 | a receipt with data yields `data.txHash`; an unrecognised code falls through to the forward; everything else, `transactionFailed` included, is the fixed "wallet window was closed" error |
| `ProviderProperties.SignResponseMapping` | src/connector/src/SequenceWaasTransportProvider.js:67-73 | a response with data yields `data.signature`; any failure is "Unable to sign: wallet window was closed." |
| `ProviderProperties.SendBeforeConnectFails` | src/connector.ts:208-213 | before a connection, send and sign fail at once with their fixed messages and change nothing |
| `ProviderProperties.SendCarriesChainId` | src/connector/src/SequenceWaasTransportProvider.js:67-68 | with the window open, the request posted is exactly the method, its params and the current chain id, and the call awaits that id |
| `ProviderProperties.AnsweredRequestResolves` | src/connector/src/ProviderTransport.js:124-128 | a result answer without an error resolves its registered request with that result |
| `ProviderProperties.ResultMessage` | src/connector/src/ProviderTransport.js:125 | test fixture, not a model of the line: an answer payload that names its id, carries the result and has no error |
| `ProviderProperties.ReceiptYieldsHash` | src/connector.ts:203-207 | a `transactionReceipt` answer makes `eth_sendTransaction` return its `txHash` |
| `ProviderProperties.TransactionFailedLosesReason` | src/connector.ts:196-213 | a `transactionFailed` answer surfaces as "Unable to send transaction: wallet window was closed.", not with the wallet's reason |
| `ProviderProperties.SendThenWindowClosed` | src/connector/src/SequenceWaasTransportProvider.js:58-61 | a send whose popup closes before any answer, or could not open, fails with the fixed "wallet window was closed" error |

## Left out

- Browser plumbing is abstract events and fields, not real APIs. This covers `window.open`'s features, `postMessage`'s target origin, `addEventListener`, the 500 ms delays, and the `URL` parsing that derives the wallet origin (the origin is a given string). The `console.log` calls are omitted.
- Ordering between listeners is not modelled: the `message` handler and the `ready` listeners act on disjoint payloads, so their order makes no difference.
- Local storage holds the parsed value, `JSON.parse(JSON.stringify(session))`, not JSON text. The `JSON.parse` exception on a corrupt record is not modelled. Cyclic values and `toJSON` methods cannot be written as a `Json`, so the only `JSON.stringify` failure modelled is the BigInt one.
- StepPreservesInv: holds only for events in which no handler throws. An accepted handshake whose address `JSON.stringify` refuses leaves its id registered but not pending (`UnserialisableAddressBreaksJoin`). `StepPreservesConsistent` states the weaker invariant every event keeps.
- RunPreservesInv: holds only for runs in which no handler throws, for the same reason. `RunPreservesConsistent` covers every run.
- The session's `lastConnected` timestamp is not modelled, because nothing reads it.
- `crypto.randomUUID` is not modelled: the id is a parameter, required to be fresh on the paths that draw one.
- The EIP-55 checksum casing `getAddress` applies (it needs Keccak) is not modelled: `Accounts` answers carry the address as the wallet sent it. Its validation, which throws for anything but `0x` and forty hex digits, is modelled as `InvalidAddress`.
- `ethers.JsonRpcProvider.send`, `getTransaction` and `detectNetwork` are not modelled. A forward is reported as `Forward(method, params)`, with no result.
- `ethers.Network.from` on a normalised value that is not a non-negative integer (NaN, a negative number, `undefined`, a boolean) is not modelled. The outcome is `Unmodelled`, after the read-only client has been rebuilt, as in the source. For the same reason the constructor is modelled only for a non-negative initial chain id (`Provider.NewProvider` takes a `nat`), although the source passes any number to `Network.from`.
- The `allNetworks` directory is an uninterpreted `map<int, string>` in the provider state.
- `ChainId.Normalize`: numbers are integers only. `Number(bigint)` and `parseInt` results are exact; the source rounds them to a double above 2^53, and a negative zero reads as 0.
- The framework connector class is not modelled. That covers `SequenceCrossAppConnector.js`, the class in `src/connector.ts` lines 18-109 (including `signMessage` and `endSession`) and the `helpers.js` class factory.
- The React UI (`App.tsx`, `Connected.tsx`) and the `.d.ts` declaration files are not modelled.

## Quirks of the source

- **`transactionFailed` responses.** The error thrown for a `transactionFailed` response is caught by the surrounding `try` and replaced by the generic message. The caller sees "Unable to send transaction: wallet window was closed." and never the wallet's reason (`ProviderProperties.TransactionFailedLosesReason`).
- **Liveness timer after a close.** `handleWalletClosed` empties the registry with `clear()`, which skips the observed `delete`, so the liveness interval keeps running over an empty registry (`TransportProperties.ClearLeavesLivenessCheckRunning`).
- **Blocked popup during `connect`.** The rejection of `openWalletAndPostMessage` is not awaited by `connect`. The handshake stays registered until the liveness check rejects it with "Connection rejected" (`TransportProperties.BlockedHandshakeRejectedByLivenessCheck`).
- **Unknown chain id.** A chain id missing from the network directory is accepted. The read-only client is built for the network name `undefined`.
- **`normalizeChainId` nesting.** It unwraps nested `{chainId}` objects as often as they nest (`ChainId.WrappedNormalizesLikeInner`).
- **Radix prefix.** Only a lower-case `0x` selects base 16. `0X1a` is read in base 10, as 0.
- **Unserialisable address.** `saveSession` sets the in-memory session and then calls `JSON.stringify`, which throws on a BigInt address. The handshake handler stops there: `connect` never settles, the window is not auto-closed, and the exception skips the registry `delete` in the message handler. The id stays registered but is no longer pending, and the in-memory session makes the next `connect` answer from cache. The liveness sweep or `disconnect` later rejects the handshake as refused (`TransportProperties.UnserialisableAddressBreaksJoin`).
- **Second message before `ready`.** `isWalletOpen()` is true as soon as `window.open` returns. A second request on a popup that has not yet said `ready` is posted at once, ahead of the first, which waits in the `ready` queue (`TransportProperties.SecondRequestBeforeReadyPostedAtOnce`).
- **Stored `null` session.** A stored record that parses to `null` marks the transport `connected` without a session.
