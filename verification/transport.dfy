/** The popup RPC transport (`ProviderTransport`) as pure transitions over an
    immutable state. Browser plumbing becomes data: the popup is a three-way
    status, the `ready` listeners are a queue of messages waiting to be
    posted, timers are a flag and a counter, local storage is a field, and
    promise settlement is written to a log keyed by correlation id. */
module Transport {
  import opened Values

  /** A correlation id, as `crypto.randomUUID` produces. */
  type Id = string

  const ConnectionRejected := "Connection rejected"
  const NotConnected := "Not connected to wallet. Call connect() first."
  const PopupBlocked := "Failed to open wallet window. Please check your pop-up blocker settings."
  const WalletClosed := "Wallet window was closed"

  datatype ConnState = Disconnected | Connecting | Connected

  /** The popup handle: none, an open window, or a handle whose window has
      been closed by the user or the wallet (seen only by polling). */
  datatype Window = NoWindow | Live | Closed

  /** Which of the two one-shot handlers a registry entry holds. */
  datatype Callback = OnConnection | OnResponse

  datatype Message =
    | ConnectionRequest(id: Id)
    | MethodRequest(id: Id, methodName: string, params: seq<Json>, chainId: int)

  /** How a promise returned by `connect` or `sendRequest` settled; a
      rejection records the argument given to `new Error(...)`. */
  datatype Settlement = Resolved(value: Json) | Rejected(reason: Json)

  /** The immediate answer of `connect`/`sendRequest`: settled on the spot,
      or awaiting the log entry of a correlation id. */
  datatype Call = Now(settlement: Settlement) | Later(id: Id)

  datatype State = State(
    walletOrigin: string,
    conn: ConnState,
    session: Json,                 // in-memory session object; Undefined when absent
    stored: Option<Json>,          // the persisted `walletSession` record
    callbacks: map<Id, Callback>,  // the observed callback registry
    pending: set<Id>,              // pendingRequests
    window: Window,
    awaitingReady: seq<Message>,   // messages whose `ready` listener is still installed
    posted: seq<Message>,          // every postMessage made on a window handle
    checking: bool,                // the liveness interval is installed
    intervalsStarted: nat,         // how many liveness intervals were ever created
    closeTimers: nat,              // auto-close timeouts scheduled and not yet fired
    settled: map<Id, Settlement>)  // settlement log

  /** The transport events. `id` is the value `crypto.randomUUID` returns and
      `opens` whether `window.open` returned a window. */
  datatype Event =
    | CallConnect(id: Id, opens: bool)
    | CallSend(methodName: string, params: seq<Json>, chainId: int, id: Id, opens: bool)
    | MessageEvent(origin: string, data: Json)
    | PopupClosed
    | CheckInterval
    | CloseTimeout
    | CallDisconnect

  /** A correlation id that has never been used by this transport. */
  predicate Fresh(s: State, id: Id) {
    id !in s.callbacks && id !in s.pending && id !in s.settled
  }

  /** Reachable-state invariant: registry keys and pending ids coincide, no
      registered id has settled yet, and the liveness timer runs whenever the
      registry is non-empty. */
  predicate Inv(s: State) {
    && s.callbacks.Keys == s.pending
    && s.callbacks.Keys !! s.settled.Keys
    && (|s.callbacks| > 0 ==> s.checking)
  }

  /** What holds at every event boundary even when a handler has thrown:
      pending ids are registered, no registered id has settled, and the
      liveness timer runs whenever the registry is non-empty. A handler
      that throws leaves its id registered but no longer pending. */
  predicate Consistent(s: State) {
    && s.pending <= s.callbacks.Keys
    && s.callbacks.Keys !! s.settled.Keys
    && (|s.callbacks| > 0 ==> s.checking)
  }

  /** The constructor: no window, nothing pending; a stored session, when
      local storage holds one, is loaded and marks the transport connected. */
  function Init(walletOrigin: string, stored: Option<Json>): (s: State)
    ensures Inv(s) && s.callbacks == map[] && s.window == NoWindow && !s.checking
    ensures s.conn == Connected <==> stored.Some?
    ensures stored.Some? ==> s.session == stored.value
  {
    State(walletOrigin,
          if stored.Some? then Connected else Disconnected,
          if stored.Some? then stored.value else Undefined,
          stored, map[], {}, NoWindow, [], [], false, 0, 0, map[])
  }

  /** `connect`'s cache test: connected and holding a session. */
  predicate HasSession(s: State) {
    s.conn == Connected && Truthy(s.session)
  }

  predicate IsWalletOpen(s: State) {
    s.window == Live
  }

  /** `getWalletAddress`. */
  function GetWalletAddress(s: State): (a: Json)
    ensures Nullish(s.session) ==> a == Undefined
    ensures s.session.Obj? ==> a == Get(s.session, "walletAddress")
  {
    if Nullish(s.session) then Undefined else Get(s.session, "walletAddress")
  }

  // ------------------------------------------------------ liveness timer

  /** `ensureWalletCheckActive`: installs an interval only when none is. */
  function EnsureCheckActive(s: State): (r: State)
    ensures r.checking
    ensures r.intervalsStarted == if s.checking then s.intervalsStarted else s.intervalsStarted + 1
    ensures r == s.(checking := r.checking, intervalsStarted := r.intervalsStarted)
  {
    if s.checking then s else s.(checking := true, intervalsStarted := s.intervalsStarted + 1)
  }

  /** `ensureWalletCheckInactive`. */
  function EnsureCheckInactive(s: State): (r: State)
    ensures !r.checking && r == s.(checking := false)
  {
    s.(checking := false)
  }

  /** `updateWalletCheck`, run after every observed `set` and `delete`: the
      flag ends up on exactly when the registry is non-empty. */
  function UpdateWalletCheck(s: State): (r: State)
    ensures r.checking <==> |s.callbacks| > 0
    ensures r == s.(checking := r.checking, intervalsStarted := r.intervalsStarted)
    ensures r.intervalsStarted <= s.intervalsStarted + 1
    ensures s.checking ==> r.intervalsStarted == s.intervalsStarted
  {
    if |s.callbacks| > 0 then EnsureCheckActive(s) else EnsureCheckInactive(s)
  }

  /** The observed `callbacks.set`. */
  function SetCallback(s: State, id: Id, cb: Callback): (r: State)
    ensures r.callbacks == s.callbacks[id := cb] && r.checking
    ensures r == s.(callbacks := r.callbacks, checking := r.checking, intervalsStarted := r.intervalsStarted)
  {
    UpdateWalletCheck(s.(callbacks := s.callbacks[id := cb]))
  }

  /** The observed `callbacks.delete`. */
  function DeleteCallback(s: State, id: Id): (r: State)
    ensures r.callbacks == s.callbacks - {id}
    ensures r.checking <==> |r.callbacks| > 0
    ensures r == s.(callbacks := r.callbacks, checking := r.checking, intervalsStarted := r.intervalsStarted)
  {
    UpdateWalletCheck(s.(callbacks := s.callbacks - {id}))
  }

  // -------------------------------------------------------------- window

  /** `tryCloseWalletWindow`: schedules an auto-close only when nothing is
      pending and the window is open. */
  function TryCloseWalletWindow(s: State): (r: State)
    ensures r.closeTimers == if |s.pending| == 0 && s.window == Live then s.closeTimers + 1 else s.closeTimers
    ensures r == s.(closeTimers := r.closeTimers)
  {
    if |s.pending| == 0 && IsWalletOpen(s) then s.(closeTimers := s.closeTimers + 1) else s
  }

  /** `postMessageToWallet`: a no-op without a window handle. */
  function PostMessage(s: State, m: Message): (r: State)
    ensures r.posted == if s.window == NoWindow then s.posted else s.posted + [m]
    ensures r == s.(posted := r.posted)
  {
    if s.window != NoWindow then s.(posted := s.posted + [m]) else s
  }

  /** `openWalletAndPostMessage`; the boolean is true when the returned
      promise rejects because the popup was blocked. */
  function OpenWalletAndPostMessage(s: State, m: Message, opens: bool): (r: (State, bool))
    ensures s.window == Live ==> r.0 == s.(posted := s.posted + [m]) && !r.1
    ensures s.window != Live && opens ==>
              r.0 == s.(window := Live, awaitingReady := s.awaitingReady + [m]) && !r.1
    ensures s.window != Live && !opens ==> r.0 == s.(window := NoWindow) && r.1
  {
    if IsWalletOpen(s) then (PostMessage(s, m), false)
    else if opens then (s.(window := Live, awaitingReady := s.awaitingReady + [m]), false)
    else (s.(window := NoWindow), true)
  }

  // ------------------------------------------------------------ requests

  /** Registering a fresh id: added to the pending set and, through the
      observed `set`, to the registry, which turns the liveness check on. */
  function Register(s: State, id: Id, cb: Callback): (r: State)
    ensures r.callbacks == s.callbacks[id := cb] && r.pending == s.pending + {id} && r.checking
    ensures r == s.(callbacks := r.callbacks, pending := r.pending, checking := r.checking,
                    intervalsStarted := r.intervalsStarted)
  {
    SetCallback(s.(pending := s.pending + {id}), id, cb)
  }

  /** `connect`. Connected with a session: answers the cached address and
      changes nothing. Otherwise the handshake begins under the fresh id. */
  function Connect(s: State, id: Id, opens: bool): (r: (State, Call))
    requires !HasSession(s) ==> Fresh(s, id)
    ensures HasSession(s) ==>
              r.0 == s && r.1 == Now(Resolved(Record("walletAddress", GetWalletAddress(s))))
    ensures !HasSession(s) ==>
              && r.1 == Later(id) && r.0.conn == Connecting
              && r.0.callbacks == s.callbacks[id := OnConnection]
              && r.0.pending == s.pending + {id}
              && r.0.settled == s.settled && r.0.checking
              && r.0.session == s.session && r.0.stored == s.stored
    ensures !HasSession(s) ==> r.0 == BeginHandshake(s, id, opens)
    ensures Inv(s) ==> Inv(r.0)
    ensures Consistent(s) ==> Consistent(r.0)
  {
    if HasSession(s) then
      (s, Now(Resolved(Record("walletAddress", Get(s.session, "walletAddress")))))
    else
      (BeginHandshake(s, id, opens), Later(id))
  }

  /** The uncached part of `connect`: `connecting`, one fresh id in both the
      registry and the pending set, and the handshake posted (or queued
      behind `ready` on a freshly opened window). A blocked popup is not
      handled here: the id stays registered until the liveness check fails it. */
  function BeginHandshake(s: State, id: Id, opens: bool): (r: State)
    requires Fresh(s, id)
    ensures r.conn == Connecting && r.callbacks == s.callbacks[id := OnConnection]
    ensures r.pending == s.pending + {id} && r.settled == s.settled && r.checking
    ensures r.session == s.session && r.stored == s.stored
    ensures s.window == Live ==>
              r.window == Live && r.posted == s.posted + [ConnectionRequest(id)] && r.awaitingReady == s.awaitingReady
    ensures s.window != Live && opens ==>
              r.window == Live && r.posted == s.posted && r.awaitingReady == s.awaitingReady + [ConnectionRequest(id)]
    ensures s.window != Live && !opens ==>
              r.window == NoWindow && r.posted == s.posted && r.awaitingReady == s.awaitingReady
    ensures Inv(s) ==> Inv(r)
    ensures Consistent(s) ==> Consistent(r)
  {
    var s1 := Register(s.(conn := Connecting), id, OnConnection);
    var s2 := OpenWalletAndPostMessage(s1, ConnectionRequest(id), opens).0;
    assert s2.callbacks == s1.callbacks && s2.pending == s1.pending && s2.checking;
    assert s2.settled == s.settled && s2.conn == Connecting;
    s2
  }

  /** `sendRequest`. Not connected: rejects at once and touches nothing.
      Otherwise the request starts under the fresh id. */
  function SendRequest(s: State, methodName: string, params: seq<Json>, chainId: int, id: Id, opens: bool)
    : (r: (State, Call))
    requires s.conn == Connected ==> Fresh(s, id)
    ensures s.conn != Connected ==> r == (s, Now(Rejected(Str(NotConnected))))
    ensures s.conn == Connected ==> r.1 == Later(id) && r.0 == StartRequest(s, MethodRequest(id, methodName, params, chainId), opens)
    ensures Inv(s) ==> Inv(r.0)
    ensures Consistent(s) ==> Consistent(r.0)
  {
    if s.conn != Connected then (s, Now(Rejected(Str(NotConnected))))
    else (StartRequest(s, MethodRequest(id, methodName, params, chainId), opens), Later(id))
  }

  /** The connected part of `sendRequest`: the id is registered and the
      request posted, except that a blocked popup removes the id again and
      rejects. */
  function StartRequest(s: State, m: Message, opens: bool): (r: State)
    requires m.MethodRequest? && Fresh(s, m.id)
    ensures r.conn == s.conn
    ensures s.window == Live ==>
              && r.callbacks == s.callbacks[m.id := OnResponse]
              && r.pending == s.pending + {m.id}
              && r.posted == s.posted + [m]
              && r.settled == s.settled
    ensures s.window != Live && opens ==>
              && r.callbacks == s.callbacks[m.id := OnResponse]
              && r.pending == s.pending + {m.id}
              && r.posted == s.posted && r.window == Live
              && r.awaitingReady == s.awaitingReady + [m]
    ensures s.window != Live && !opens ==>
              && r.callbacks == s.callbacks && r.pending == s.pending
              && r.settled == s.settled[m.id := Rejected(Str(PopupBlocked))]
              && r.window == NoWindow
    ensures Inv(s) ==> Inv(r)
    ensures Consistent(s) ==> Consistent(r)
  {
    var s1 := Register(s, m.id, OnResponse);
    assert s1.callbacks - {m.id} == s.callbacks;
    assert s1.pending - {m.id} == s.pending;
    var r := PostRequest(s1, m, opens);
    assert s.window != Live && !opens ==> r.callbacks == s.callbacks && r.pending == s.pending;
    assert s.window == Live || opens ==> r.callbacks == s1.callbacks && r.pending == s1.pending && r.settled == s.settled;
    r
  }

  /** The `sendMessage` step of `sendRequest` for a registered id: post to
      an open window, or open one and queue behind `ready`; when the popup is
      blocked, remove the id from registry and pending set and reject. */
  function PostRequest(s: State, m: Message, opens: bool): (r: State)
    requires m.MethodRequest?
    ensures s.window == Live ==> r == s.(posted := s.posted + [m])
    ensures s.window != Live && opens ==> r == s.(window := Live, awaitingReady := s.awaitingReady + [m])
    ensures s.window != Live && !opens ==>
              && r.callbacks == s.callbacks - {m.id} && r.pending == s.pending - {m.id}
              && r.settled == s.settled[m.id := Rejected(Str(PopupBlocked))]
              && r.window == NoWindow && r.conn == s.conn && r.posted == s.posted
              && (r.checking <==> |r.callbacks| > 0)
  {
    var (s1, blocked) := OpenWalletAndPostMessage(s, m, opens);
    if blocked then
      var s2 := DeleteCallback(s1, m.id);
      s2.(pending := s2.pending - {m.id}, settled := s2.settled[m.id := Rejected(Str(PopupBlocked))])
    else s1
  }

  // ------------------------------------------------------------ callbacks

  /** Whether a connection response accepts the handshake. */
  predicate Accepts(response: Json) {
    Get(response, "type") == Str("connection") && Get(response, "status") == Str("accepted")
  }

  /** What a handler settles its promise with, given the response. */
  function Outcome(cb: Callback, response: Json): (o: Settlement)
    ensures cb == OnConnection && Accepts(response) ==>
              o == Resolved(Record("walletAddress", Get(response, "walletAddress")))
    ensures cb == OnConnection && !Accepts(response) ==> o == Rejected(Str(ConnectionRejected))
    ensures cb == OnResponse && Truthy(Get(response, "error")) ==>
              o == Rejected(Get(Get(response, "error"), "message"))
    ensures cb == OnResponse && !Truthy(Get(response, "error")) ==> o == Resolved(Get(response, "result"))
  {
    match cb
    case OnConnection =>
      if Accepts(response) then Resolved(Record("walletAddress", Get(response, "walletAddress")))
      else Rejected(Str(ConnectionRejected))
    case OnResponse =>
      var err := Get(response, "error");
      if Truthy(err) then Rejected(Get(err, "message")) else Resolved(Get(response, "result"))
  }

  /** Whether running handler `cb` on `response` throws: an accepted
      handshake's `saveSession` hands the address to `JSON.stringify`, which
      throws on a BigInt. */
  predicate HandlerThrows(cb: Callback, response: Json) {
    cb == OnConnection && Accepts(response) && !Serializable(Get(response, "walletAddress"))
  }

  /** Running the handler registered for `id`: drops the id from the pending
      set, settles, updates connection state and session for a handshake,
      and asks for an auto-close once nothing is pending. A handler whose
      `saveSession` throws stops after setting the in-memory session: it
      neither settles, nor stores, nor asks for an auto-close. The registry
      entry is left to the caller. */
  function RunCallback(s: State, id: Id, cb: Callback, response: Json): (r: State)
    ensures r.pending == s.pending - {id} && r.callbacks == s.callbacks
    ensures !HandlerThrows(cb, response) ==> r.settled == s.settled[id := Outcome(cb, response)]
    ensures !HandlerThrows(cb, response) ==>
              r.closeTimers == if |r.pending| == 0 && s.window == Live then s.closeTimers + 1 else s.closeTimers
    ensures HandlerThrows(cb, response) ==>
              r.settled == s.settled && r.stored == s.stored && r.closeTimers == s.closeTimers
    ensures cb == OnConnection && Accepts(response) ==>
              r.conn == Connected && r.session == Record("walletAddress", Get(response, "walletAddress"))
    ensures cb == OnConnection && Accepts(response) && !HandlerThrows(cb, response) ==>
              r.stored == Some(Reparsed(r.session))
    ensures cb == OnConnection && !Accepts(response) ==>
              r.conn == Disconnected && r.session == s.session && r.stored == s.stored
    ensures cb == OnResponse ==> r.conn == s.conn && r.session == s.session && r.stored == s.stored
    ensures r.window == s.window && r.checking == s.checking && r.posted == s.posted
  {
    var s0 := s.(pending := s.pending - {id});
    var s1 := s0.(settled := s.settled[id := Outcome(cb, response)]);
    match cb
    case OnConnection =>
      if Accepts(response) then
        var address := Get(response, "walletAddress");
        var session := Record("walletAddress", address);
        if Serializable(address) then
          ReparsedRecord("walletAddress", address);
          TryCloseWalletWindow(s1.(conn := Connected, session := session, stored := Some(Reparsed(session))))
        else
          s0.(conn := Connected, session := session)
      else
        TryCloseWalletWindow(s1.(conn := Disconnected))
    case OnResponse =>
      TryCloseWalletWindow(s1)
  }

  /** The `ready` listeners: each posts its message to the current window
      handle and removes itself. */
  function FlushReady(s: State): (r: State)
    ensures r.awaitingReady == []
    ensures r.posted == if s.window == NoWindow then s.posted else s.posted + s.awaitingReady
    ensures r == s.(awaitingReady := [], posted := r.posted)
  {
    s.(awaitingReady := [],
       posted := if s.window != NoWindow then s.posted + s.awaitingReady else s.posted)
  }

  /** The correlation id an inbound payload names, when it names one. */
  function ResponseId(data: Json): (r: Option<Id>)
    ensures r.Some? <==> data.Obj? && Get(data, "id").Str?
    ensures r.Some? ==> Get(data, "id") == Str(r.value)
  {
    match Get(data, "id")
    case Str(id) => Some(id)
    case _ => None
  }

  /** Whether a `message` event from `origin` carrying `data` runs a
      registered handler that throws. */
  predicate MessageThrows(s: State, origin: string, data: Json) {
    && origin == s.walletOrigin && ResponseId(data).Some? && ResponseId(data).value in s.callbacks
    && HandlerThrows(s.callbacks[ResponseId(data).value], data)
  }

  /** A `message` event: dropped unless it comes from the wallet origin; the
      `ready` string releases the queued messages; any other payload runs
      the handler registered for its id once and removes it. A handler that
      throws also skips the removal, so its id stays registered. */
  function HandleMessage(s: State, origin: string, data: Json): (r: State)
    ensures origin != s.walletOrigin ==> r == s
    ensures origin == s.walletOrigin && data == Str("ready") ==> r == FlushReady(s)
    ensures data != Str("ready") && (ResponseId(data).None? || ResponseId(data).value !in s.callbacks) ==> r == s
    ensures origin == s.walletOrigin && ResponseId(data).Some? && ResponseId(data).value in s.callbacks ==>
              var id := ResponseId(data).value;
              && r.pending == s.pending - {id}
              && (!MessageThrows(s, origin, data) ==>
                    && r.callbacks == s.callbacks - {id}
                    && r.settled == s.settled[id := Outcome(s.callbacks[id], data)])
              && (MessageThrows(s, origin, data) ==> r.callbacks == s.callbacks && r.settled == s.settled)
    ensures Consistent(s) ==> Consistent(r)
  {
    if origin != s.walletOrigin then s
    else if data == Str("ready") then FlushReady(s)
    else match ResponseId(data)
      case Some(id) =>
        if id in s.callbacks then
          var r1 := RunCallback(s, id, s.callbacks[id], data);
          if HandlerThrows(s.callbacks[id], data) then r1 else DeleteCallback(r1, id)
        else s
      case None => s
  }

  /** `handleWalletClosed`: forgets the window, runs every registered handler
      with the "Wallet window was closed" error, then empties registry and
      pending set with `clear()`, which bypasses the observed `delete` and so
      leaves the liveness flag as it was. */
  function HandleWalletClosed(s: State): (r: State)
    ensures r.window == NoWindow && r.callbacks == map[] && r.pending == {}
    ensures r.settled.Keys == s.settled.Keys + s.callbacks.Keys
    ensures forall id :: id in s.callbacks ==> r.settled[id] == ClosedOutcome(s.callbacks[id])
    ensures forall id :: id in s.settled && id !in s.callbacks ==> r.settled[id] == s.settled[id]
    ensures r.conn == if OnConnection in s.callbacks.Values then Disconnected else s.conn
    ensures r.checking == s.checking && r.closeTimers == s.closeTimers
    ensures r.session == s.session && r.stored == s.stored
  {
    s.(window := NoWindow,
       settled := s.settled + ClosedOutcomes(s.callbacks),
       conn := if OnConnection in s.callbacks.Values then Disconnected else s.conn,
       callbacks := map[],
       pending := {})
  }

  /** The settlements of all registered handlers when the window is found closed. */
  function ClosedOutcomes(callbacks: map<Id, Callback>): (m: map<Id, Settlement>)
    ensures m.Keys == callbacks.Keys
    ensures forall id :: id in callbacks ==> m[id] == ClosedOutcome(callbacks[id])
  {
    map id | id in callbacks :: ClosedOutcome(callbacks[id])
  }

  /** What a handler settles with when the window is found closed. */
  function ClosedOutcome(cb: Callback): (o: Settlement)
    ensures o == Outcome(cb, Record("error", Record("message", Str(WalletClosed))))
    ensures o.Rejected?
  {
    match cb
    case OnConnection => Rejected(Str(ConnectionRejected))
    case OnResponse => Rejected(Str(WalletClosed))
  }

  /** `disconnect`: disconnected, session gone from memory and storage,
      window closed, and every pending handler failed as by a closed window. */
  function Disconnect(s: State): (r: State)
    ensures r.conn == Disconnected && r.session == Undefined && r.stored == None
    ensures GetWalletAddress(r) == Undefined
    ensures r == HandleWalletClosed(s.(conn := Disconnected, session := Undefined, stored := None))
  {
    HandleWalletClosed(s.(conn := Disconnected, session := Undefined, stored := None, window := NoWindow))
  }

  /** The liveness interval firing: a window that is missing or closed fails
      everything pending. Without an installed interval nothing fires. */
  function PollTick(s: State): (r: State)
    ensures !s.checking || s.window == Live ==> r == s
    ensures s.checking && s.window != Live ==> r == HandleWalletClosed(s)
    ensures s.checking && s.window != Live ==>
              && r.callbacks == map[] && r.pending == {} && r.window == NoWindow
              && (forall id :: id in s.callbacks ==> id in r.settled && r.settled[id].Rejected?)
    ensures Inv(s) ==> Inv(r) && (forall id :: id in s.settled ==> id in r.settled && r.settled[id] == s.settled[id])
    ensures Consistent(s) ==> Consistent(r)
  {
    if s.checking && !IsWalletOpen(s) then HandleWalletClosed(s) else s
  }

  /** An auto-close timeout firing: closes the window only if nothing is
      pending now (it was scheduled only when nothing was pending). */
  function AutoCloseFires(s: State): (r: State)
    ensures s.closeTimers == 0 ==> r == s
    ensures s.closeTimers > 0 ==> r.closeTimers == s.closeTimers - 1
    ensures s.closeTimers > 0 ==> (r.window == NoWindow <==> |s.pending| == 0 || s.window == NoWindow)
    ensures r.callbacks == s.callbacks && r.pending == s.pending && r.settled == s.settled
  {
    if s.closeTimers == 0 then s
    else
      var s1 := s.(closeTimers := s.closeTimers - 1);
      if |s.pending| == 0 then s1.(window := NoWindow) else s1
  }

  /** The user or the wallet closing the popup. */
  function WindowCloses(s: State): (r: State)
    ensures r.window == if s.window == Live then Closed else s.window
    ensures r == s.(window := r.window)
  {
    if s.window == Live then s.(window := Closed) else s
  }

  /** The id an event would take from `crypto.randomUUID`, if any. */
  function NewId(e: Event): Option<Id> {
    match e
    case CallConnect(id, _) => Some(id)
    case CallSend(_, _, _, id, _) => Some(id)
    case _ => None
  }

  /** Whether event `e` runs a handler that throws in state `s`. */
  predicate StepThrows(s: State, e: Event) {
    e.MessageEvent? && MessageThrows(s, e.origin, e.data)
  }

  /** One event, the transport's answer discarded. */
  function Step(s: State, e: Event): State
    requires NewId(e).Some? ==> Fresh(s, NewId(e).value)
  {
    match e
    case CallConnect(id, opens) => Connect(s, id, opens).0
    case CallSend(methodName, params, chainId, id, opens) => SendRequest(s, methodName, params, chainId, id, opens).0
    case MessageEvent(origin, data) => HandleMessage(s, origin, data)
    case PopupClosed => WindowCloses(s)
    case CheckInterval => PollTick(s)
    case CloseTimeout => AutoCloseFires(s)
    case CallDisconnect => Disconnect(s)
  }
}
