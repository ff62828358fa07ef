# FIX acceptor message generator — subscription registry and publication model

This project models, in Dafny, the application layer of a FIX 4.4 acceptor
that plays a synthetic counterparty (`AcceptorApp`). The acceptor keeps a
registry that maps each symbol to the set of MDEntryType codes (tag 269)
requested for it. `"0"` is Bid and `"1"` is Offer. Market-data requests
grow the registry, and a logout empties it. The acceptor answers requests at
once with a market-data snapshot, a trade capture report or a security
definition. A periodic tick sends, for every subscribed symbol, a Quote when
the symbol asked for bids or offers, and then a fully filled
ExecutionReport.

Modules:

- `Wrappers` (`wrappers.dfy`): the `Option` datatype, used where the Java code has `null`.
- `Messages` (`messages.dfy`): the FIX records as datatypes and the inbound requests. It also holds the pure builders of the
  records (`BuildQuote`, `BuildExecutionReport`, `BuildTradeCaptureReport`,
  `BuildSecurityDefinition`) and `BuildMarketDataSnapshot`, a method that builds the snapshot's groups in a loop.
  Prices are exact fixed-point values with 5 decimal places (`Price.ticks`).
  Sizes have 1 decimal place (`Size.tenths`).
- `Registry` (`registry.dfy`): the subscription map `map<string, set<string>>`.
  It holds `Subscribe`, the lookup `EntryKindsFor` and the quoting rule `WantsQuote`.
- `Publication` (`publication.dfy`): one send is an `Attempt` that the transport may refuse.
  `TickAttempts` specifies what a tick attempts for a given walk order.
  The lemmas about it cover counts per symbol, ordering, record shape and independence from send failures.
- `Acceptor` (`acceptor.dfy`): the events (`Logon`, `Logout`, `MarketData`) and their pure effect `Handle`.
  `Run` applies a history of events, and lemmas describe the state after any history.
  The class `AcceptorApp` has the two mutable fields `subscriptions` and `sessionID`.
  Its methods are the callbacks, and each callback's new state is tied to `Handle`.

Random values, UUIDs, clocks and the transport's answer are parameters.
Each random value arrives through a per-record parameter whose precondition
is the range the Java random source delivers: `nextInt(900)` is in
[0, 900), and a rounded `nextDouble() * 100 + 1` is in [1, 101]. The answer
of `Session.sendToTarget` is a boolean `accepted`. A send with no recorded
session is never delivered, because the engine finds no session for a null
id and throws.

Behaviours of the code worth knowing:

- Logout empties the registry but does not clear the recorded session
  (AcceptorApp.java:33-35). After a logout, a tick still finds a session and
  walks an empty registry.
- A request that lists no entry types still leaves its symbol in the
  registry, with an empty set (AcceptorApp.java:54).
- Snapshot entry prices and trade capture prices are drawn from
  `nextDouble() * 100`, so they lie in [0, 100], unlike quote and execution prices, which lie in [1, 101].
- Only the first NoRelatedSym group of a market-data request is read
  (AcceptorApp.java:53). A request with no such group fails with
  FieldNotFound before the registry changes.
- The snapshot reply goes to the session the request came from. The trade
  capture report and the security definition go to the recorded session
  field (AcceptorApp.java:162, 179).
- An entry type is read as a string for the registry but as a `char` for
  the snapshot (AcceptorApp.java:56, 136). An entry type that is not exactly
  one character is still subscribed, but the snapshot is abandoned (`NoReply`).
- Logging on again starts another timer without cancelling the old one.
  Timers are not modelled (see Left out).

## Model

| member | source | states |
|---|---|---|
| `Registry.Subscribe` | src/main/java/com/example/fixacceptor/AcceptorApp.java:53-58 | The request's symbol becomes or stays a key, even with no entry types. Its set becomes exactly the old set (or empty) united with the requested types. Every other symbol keeps its set. |
| `Registry.SubscribeOnlyGrows` | src/main/java/com/example/fixacceptor/AcceptorApp.java:54-57 | Subscribing never removes an entry type or a key from any symbol. |
| `Registry.SubscribeIdempotent` | src/main/java/com/example/fixacceptor/AcceptorApp.java:54-57 | Repeating the same request leaves the registry unchanged. |
| `Registry.SubscribeCommutes` | src/main/java/com/example/fixacceptor/AcceptorApp.java:54-57 | Two requests leave the same registry in either order, so the registry depends only on which requests arrived. |
| `Acceptor.RunSubscriptions` | src/main/java/com/example/fixacceptor/AcceptorApp.java:33-58 | After any history of logons, logouts and requests, a symbol's set is the union of the types requested for it since the last logout (plus its initial set if nobody logged out). It is a key exactly when such a request named it. |
| `Acceptor.SinceLogoutFacts` | src/main/java/com/example/fixacceptor/AcceptorApp.java:33-35 | The events since the last logout contain no logout, and with no logout in the history they are the whole history, because a logout wipes everything requested before it. |
| `Acceptor.RunSession` | src/main/java/com/example/fixacceptor/AcceptorApp.java:27-35 | The recorded session is the last one to log on. Logout never clears it, so once set it stays set. |
| `Acceptor.SubscribedSymbolTick` | src/main/java/com/example/fixacceptor/AcceptorApp.java:78-86 | After a logon and one request for a symbol, a tick attempts one ExecutionReport for it. It attempts one Quote exactly when the request listed "0" or "1". Nothing else is attempted. |
| `Acceptor.AcceptorApp.constructor` | src/main/java/com/example/fixacceptor/AcceptorApp.java:18-21 | A new acceptor has an empty registry and no session. |
| `Acceptor.AcceptorApp.OnLogon` | src/main/java/com/example/fixacceptor/AcceptorApp.java:27-30 | Logon records the session id and leaves the registry unchanged. |
| `Acceptor.AcceptorApp.OnLogout` | src/main/java/com/example/fixacceptor/AcceptorApp.java:33-35 | Logout empties the registry and leaves the recorded session as it was. |
| `Acceptor.AcceptorApp.OnMarketDataRequest` | src/main/java/com/example/fixacceptor/AcceptorApp.java:52-62 | With no related-symbol group it reports FieldMissing and changes nothing. Otherwise the registry becomes `Subscribe` of the first symbol and the types. The reply is a snapshot sent to the requesting session. The snapshot echoes MDReqID and the symbol and has one entry per requested type, in order. There is no reply when a type is not one character. |
| `Acceptor.AcceptorApp.OnTradeCaptureReportRequest` | src/main/java/com/example/fixacceptor/AcceptorApp.java:64-167 | The handler (lines 64-68) calls the sender (lines 152-167). Without a symbol it reports FieldMissing. Otherwise it attempts one trade capture report for the symbol, with 1 ≤ LastQty ≤ 500 and a price in [0, 100]. The report goes to the recorded session and is delivered exactly when a session exists and the transport accepts. |
| `Acceptor.AcceptorApp.OnSecurityDefinitionRequest` | src/main/java/com/example/fixacceptor/AcceptorApp.java:71-184 | The handler (lines 71-75) calls the sender (lines 169-184). Without a symbol it reports FieldMissing. Otherwise it attempts an accepted definition (response type 1) of the symbol, with security type FOR and currency USD. It goes to the recorded session. |
| `Acceptor.AcceptorApp.SendMessages` | src/main/java/com/example/fixacceptor/AcceptorApp.java:78-86 | With no session it attempts nothing. Otherwise it walks every subscribed symbol exactly once. Every subscribed symbol gets exactly one ExecutionReport attempt, and unsubscribed symbols get none. A symbol gets a Quote attempt exactly when its set holds "0" or "1". Each Quote comes immediately before its symbol's ExecutionReport. Every attempt aims at the recorded session. The registry is not modified. |
| `Publication.TickCounts` | src/main/java/com/example/fixacceptor/AcceptorApp.java:80-85 | Over a walk of distinct symbols, each walked symbol gets exactly one ExecutionReport attempt and others none. Each walked symbol that wants bids or offers gets exactly one Quote attempt, and the rest none. |
| `Publication.SymbolCounts` | src/main/java/com/example/fixacceptor/AcceptorApp.java:81-84 | One symbol's share of a tick holds exactly one ExecutionReport, and a Quote exactly when the symbol wants one. |
| `Publication.QuoteThenExec` | src/main/java/com/example/fixacceptor/AcceptorApp.java:81-84 | Every Quote a tick attempts is followed at once by the ExecutionReport for the same symbol. |
| `Publication.TickRecordsWellFormed` | src/main/java/com/example/fixacceptor/AcceptorApp.java:103-122 | Every attempt of a tick targets the tick's session. Every ExecutionReport in a tick is a full fill of 100 to 999 units. |
| `Publication.FailuresDoNotStopTick` | src/main/java/com/example/fixacceptor/AcceptorApp.java:88-127 | Two ticks with the same generated content attempt the same records in the same order, whatever the transport answered. A refused send never stops the remaining sends. |
| `Messages.BuildExecutionReport` | src/main/java/com/example/fixacceptor/AcceptorApp.java:105-120 | The report is a full fill: ExecType FILL, OrdStatus FILLED, Side BUY, LeavesQty 0, CumQty = LastQty and AvgPx = LastPx. LastQty is the `nextInt(900)` draw plus 100, so it is between 100 and 999. LastPx is the drawn price, in [1, 101]. |
| `Messages.FillQtyIsBijective` | src/main/java/com/example/fixacceptor/AcceptorApp.java:105 | Every quantity in [100, 999] is the LastQty of the report built from exactly one `nextInt(900)` draw. |
| `Messages.BuildQuote` | src/main/java/com/example/fixacceptor/AcceptorApp.java:90-94 | A quote carries the symbol, and its bid and offer each lie in [1, 101]. |
| `Messages.BuildTradeCaptureReport` | src/main/java/com/example/fixacceptor/AcceptorApp.java:154-158 | A trade capture report carries the symbol, a LastQty in [1, 500] and a price in [0, 100]. |
| `Messages.BuildMarketDataSnapshot` | src/main/java/com/example/fixacceptor/AcceptorApp.java:129-150 | A snapshot exists exactly when every requested entry type is one character. It echoes MDReqID and the symbol. It has exactly as many entries as requested types. Entry i has the i-th requested type and the i-th drawn price and size, within [0, 100] and [0, 10]. |

## Left out

- The `ScheduledExecutorService` timer started at AcceptorApp.java:29 is concurrency and is not modelled, nor is the fact that a re-logon adds a second timer. One tick is modelled as one sequential call of `SendMessages`.
- The thread safety of the `ConcurrentHashMap` and a logout racing a tick are not modelled. Such a race could make `get(symbol)` return null inside the walk. The tick walks a snapshot of the keys sequentially.
- Floating-point price generation and `round` (AcceptorApp.java:186-189) are not modelled. Prices and sizes arrive already rounded, as exact fixed-point parameters within the ranges the generator yields.
- The Java `Random` is not modelled as one shared stream. Each record receives its own draws as parameters, so the order in which values are consumed is not captured.
- UUID-derived identifiers are not modelled: QuoteID, OrderID, ExecID, ClOrdID, TradeReportID, SecurityReqID and SecurityResponseID. Timestamps are not modelled either: TransactTime, MDEntryTime and TradeDate. Both depend on randomness and the clock.
- Logging (`System.out.println`, `printStackTrace`) is not modelled.
- QuickFIX message classes and `Session.sendToTarget` are replaced by record datatypes and an `Attempt` with an `accepted` flag from the transport.
- A MarketDataRequest whose NoMDEntryTypes count field is itself missing is not modelled; the FIX 4.4 dictionary requires that field. Missing that field would leave an empty set and send no snapshot. The model takes the number of entry types as the length of the group list.
- The empty callbacks `onCreate`, `toAdmin`, `fromAdmin` and `toApp` have no logic and are not modelled. The dispatch by `crack` in `fromApp` is the choice of which `On…Request` method to call.
- The unused `symbols` list (AcceptorApp.java:19) is dead data and is not modelled.
- src/main/java/com/example/fixacceptor/FixAcceptorLauncher.java is not part of this model. It does configuration loading, socket acceptor start and stop, and the shutdown hook.
