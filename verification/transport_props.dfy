/** Properties of the transport: the registry/pending invariant holds at
    every event boundary of a run in which no handler throws, a weaker one
    at every boundary of every run, every correlation id settles at most
    once and never leaves the registry unsettled, and the handshake,
    failure, readiness and liveness behaviours the transport promises,
    including the liveness flag left on by `clear()`. */
module TransportProperties {
  import opened Values
  import opened Transport

  /** Every event in which no handler throws keeps the invariant. */
  lemma StepPreservesInv(s: State, e: Event)
    requires Inv(s)
    requires NewId(e).Some? ==> Fresh(s, NewId(e).value)
    ensures !StepThrows(s, e) ==> Inv(Step(s, e))
  {
    match e
    case CallConnect(id, opens) =>
    case CallSend(m, ps, c, id, opens) =>
    case MessageEvent(origin, data) =>
      var r := HandleMessage(s, origin, data);
      if origin == s.walletOrigin && data != Str("ready") && ResponseId(data).Some?
         && ResponseId(data).value in s.callbacks {
        var id := ResponseId(data).value;
        if !HandlerThrows(s.callbacks[id], data) {
          var r1 := RunCallback(s, id, s.callbacks[id], data);
          assert r == DeleteCallback(r1, id);
          assert r.callbacks.Keys == s.callbacks.Keys - {id};
        }
      }
    case PopupClosed =>
    case CheckInterval =>
    case CloseTimeout =>
    case CallDisconnect =>
  }

  /** Every event, a throwing handler's included, keeps `Consistent`. */
  lemma StepPreservesConsistent(s: State, e: Event)
    requires Consistent(s)
    requires NewId(e).Some? ==> Fresh(s, NewId(e).value)
    ensures Consistent(Step(s, e))
  {
  }

  /** The wallet accepting a handshake with an address `JSON.stringify`
      refuses (a BigInt): the handshake id leaves the pending set but stays
      registered, `connect` never settles, storage is untouched, yet the
      in-memory session makes the transport look connected. The invariant
      is broken, and only the liveness check or `disconnect` settles the
      handshake, rejecting it as refused. */
  lemma UnserialisableAddressBreaksJoin(s: State, id: Id, opens: bool, address: Json)
    requires Inv(s) && Fresh(s, id) && !HasSession(s) && !Serializable(address)
    ensures var s1 := Connect(s, id, opens).0;
            var s2 := HandleMessage(s1, s.walletOrigin, Acceptance(id, address));
            && id in s2.callbacks && id !in s2.pending && id !in s2.settled && !Inv(s2) && Consistent(s2)
            && s2.stored == s.stored && HasSession(s2) && GetWalletAddress(s2) == address
            && var s3 := HandleWalletClosed(s2);
               s3.settled[id] == Rejected(Str(ConnectionRejected)) && s3.conn == Disconnected
  {
    var s1 := Connect(s, id, opens).0;
    assert s1.callbacks[id] == OnConnection;
    var data := Acceptance(id, address);
    assert MessageThrows(s1, s.walletOrigin, data);
    var s2 := HandleMessage(s1, s.walletOrigin, data);
    assert s2 == RunCallback(s1, id, OnConnection, data);
    assert id in s2.callbacks && id !in s2.pending && s2.stored == s.stored;
    assert s2.session == Record("walletAddress", address);
    assert OnConnection in s2.callbacks.Values by { assert s2.callbacks[id] == OnConnection; }
  }

  /** Settlement is exactly-once across one transition from `s` to `r`: a
      settled id keeps its settlement, an id settles only out of the registry
      (or as the fresh id the transition drew), and an id that leaves the
      registry has settled. */
  ghost predicate SettlesOnce(s: State, r: State, drawn: Option<Id>) {
    && (forall id :: id in s.settled ==> id in r.settled && r.settled[id] == s.settled[id])
    && (forall id :: id in r.settled && id !in s.settled ==> id in s.callbacks || drawn == Some(id))
    && (forall id :: id in s.callbacks && id !in r.callbacks ==> id in r.settled)
  }

  lemma MessageSettlesOnce(s: State, origin: string, data: Json)
    requires Consistent(s)
    ensures SettlesOnce(s, HandleMessage(s, origin, data), None)
  {
    var r := HandleMessage(s, origin, data);
    if origin == s.walletOrigin && data != Str("ready") && ResponseId(data).Some?
       && ResponseId(data).value in s.callbacks && !MessageThrows(s, origin, data) {
      var id := ResponseId(data).value;
      assert r.callbacks == s.callbacks - {id};
      assert r.settled == s.settled[id := Outcome(s.callbacks[id], data)];
    }
  }

  lemma ClosedSettlesOnce(s: State)
    requires Consistent(s)
    ensures SettlesOnce(s, HandleWalletClosed(s), None)
  {
  }

  lemma SendSettlesOnce(s: State, name: string, params: seq<Json>, chainId: int, id: Id, opens: bool)
    requires Consistent(s) && Fresh(s, id)
    ensures SettlesOnce(s, SendRequest(s, name, params, chainId, id, opens).0, Some(id))
  {
  }

  /** Every event settles exactly once in the sense of `SettlesOnce`. */
  lemma StepSettlesOnce(s: State, e: Event)
    requires Consistent(s)
    requires NewId(e).Some? ==> Fresh(s, NewId(e).value)
    ensures SettlesOnce(s, Step(s, e), NewId(e))
  {
    match e
    case CallConnect(id, opens) =>
    case CallSend(m, ps, c, id, opens) => SendSettlesOnce(s, m, ps, c, id, opens);
    case MessageEvent(origin, data) => MessageSettlesOnce(s, origin, data);
    case PopupClosed =>
    case CheckInterval => ClosedSettlesOnce(s);
    case CloseTimeout =>
    case CallDisconnect =>
      var s' := s.(conn := Disconnected, session := Undefined, stored := None);
      ClosedSettlesOnce(s');
  }

  // ------------------------------------------------------------- traces

  /** A sequence of events whose every `randomUUID` draw is fresh. */
  predicate Runnable(s: State, es: seq<Event>)
    decreases |es|
  {
    |es| == 0 ||
    ((NewId(es[0]).Some? ==> Fresh(s, NewId(es[0]).value)) && Runnable(Step(s, es[0]), es[1..]))
  }

  function Run(s: State, es: seq<Event>): State
    requires Runnable(s, es)
    decreases |es|
  {
    if |es| == 0 then s else Run(Step(s, es[0]), es[1..])
  }

  /** A run in which no handler throws. */
  predicate HandlersReturn(s: State, es: seq<Event>)
    requires Runnable(s, es)
    decreases |es|
  {
    |es| == 0 || (!StepThrows(s, es[0]) && HandlersReturn(Step(s, es[0]), es[1..]))
  }

  /** From any state satisfying the invariant (the constructor's among them),
      every run in which no handler throws keeps it: registry keys equal the
      pending set at every event boundary. */
  lemma {:induction false} RunPreservesInv(s: State, es: seq<Event>)
    requires Inv(s) && Runnable(s, es)
    ensures HandlersReturn(s, es) ==> Inv(Run(s, es))
    decreases |es|
  {
    if |es| > 0 && HandlersReturn(s, es) {
      StepPreservesInv(s, es[0]);
      RunPreservesInv(Step(s, es[0]), es[1..]);
    }
  }

  /** Every run, throwing handlers included, keeps `Consistent`. */
  lemma {:induction false} RunPreservesConsistent(s: State, es: seq<Event>)
    requires Consistent(s) && Runnable(s, es)
    ensures Consistent(Run(s, es))
    decreases |es|
  {
    if |es| > 0 {
      StepPreservesConsistent(s, es[0]);
      RunPreservesConsistent(Step(s, es[0]), es[1..]);
    }
  }

  /** Over any run, an id that has settled keeps its settlement: no id is
      settled twice. */
  lemma {:induction false} RunKeepsSettlements(s: State, es: seq<Event>)
    requires Consistent(s) && Runnable(s, es)
    ensures forall id :: id in s.settled ==> id in Run(s, es).settled && Run(s, es).settled[id] == s.settled[id]
    decreases |es|
  {
    if |es| > 0 {
      StepSettlesOnce(s, es[0]);
      StepPreservesConsistent(s, es[0]);
      RunKeepsSettlements(Step(s, es[0]), es[1..]);
    }
  }

  /** Over any run, an id that was registered and is no longer registered
      has settled: no id is dropped without an answer. */
  lemma {:induction false} RunSettlesWhatLeaves(s: State, es: seq<Event>)
    requires Consistent(s) && Runnable(s, es)
    ensures forall id :: id in s.callbacks && id !in Run(s, es).callbacks ==> id in Run(s, es).settled
    decreases |es|
  {
    if |es| > 0 {
      var s1 := Step(s, es[0]);
      StepSettlesOnce(s, es[0]);
      StepPreservesConsistent(s, es[0]);
      RunKeepsSettlements(s1, es[1..]);
      RunSettlesWhatLeaves(s1, es[1..]);
    }
  }

  // ---------------------------------------------------------- handshake

  /** The wallet's acceptance of handshake `id` naming `address`. */
  function Acceptance(id: Id, address: Json): (data: Json)
    ensures Accepts(data) && ResponseId(data) == Some(id) && Get(data, "walletAddress") == address
  {
    Obj(map["type" := Str("connection"), "status" := Str("accepted"), "id" := Str(id),
            "walletAddress" := address])
  }

  /** A handshake the wallet accepts with a serialisable address leaves the
      transport connected with the address stored, and the next `connect`
      is a pure cache read: no new id, no registry or window change. With an
      address `JSON.stringify` refuses, nothing settles and nothing is
      stored (`UnserialisableAddressBreaksJoin`). */
  lemma AcceptedHandshakeThenCachedConnect(s: State, id: Id, opens: bool, address: Json, id2: Id)
    requires Inv(s) && Fresh(s, id) && !HasSession(s)
    ensures var s1 := Connect(s, id, opens).0;
            var s2 := HandleMessage(s1, s.walletOrigin, Acceptance(id, address));
            && s2.conn == Connected && GetWalletAddress(s2) == address
            && Connect(s2, id2, opens) == (s2, Now(Resolved(Record("walletAddress", address))))
            && (Serializable(address) ==>
                  && s2.stored == Some(Reparsed(Record("walletAddress", address)))
                  && id !in s2.callbacks && id !in s2.pending
                  && id in s2.settled && s2.settled[id] == Resolved(Record("walletAddress", address)))
            && (!Serializable(address) ==> s2.stored == s.stored && id !in s2.settled)
  {
    var s1 := Connect(s, id, opens).0;
    assert s1.callbacks[id] == OnConnection;
    var data := Acceptance(id, address);
    var s2 := HandleMessage(s1, s.walletOrigin, data);
    var r1 := RunCallback(s1, id, OnConnection, data);
    if Serializable(address) {
      assert !MessageThrows(s1, s.walletOrigin, data);
      assert s2 == DeleteCallback(r1, id);
    } else {
      assert s2 == r1;
    }
    assert HasSession(s2);
  }

  /** What `saveSession` stores is what `loadSession` restores: a transport
      constructed over the storage an accepted handshake left behind is
      connected with the address as `JSON` reparses it (a string address
      unchanged), while the storage `disconnect` leaves restores nothing.
      An address `JSON.stringify` refuses leaves storage as it was. */
  lemma SessionSurvivesReload(s: State, id: Id, opens: bool, address: Json)
    requires Inv(s) && Fresh(s, id) && !HasSession(s)
    ensures var s2 := HandleMessage(Connect(s, id, opens).0, s.walletOrigin, Acceptance(id, address));
            var reloaded := Init(s.walletOrigin, s2.stored);
            var cleared := Init(s.walletOrigin, Disconnect(s2).stored);
            && (Serializable(address) ==> HasSession(reloaded) && GetWalletAddress(reloaded) == Reparsed(address))
            && (address.Str? ==> GetWalletAddress(reloaded) == address)
            && (!Serializable(address) ==> s2.stored == s.stored)
            && cleared.conn == Disconnected && GetWalletAddress(cleared) == Undefined
  {
    AcceptedHandshakeThenCachedConnect(s, id, opens, address, id);
    if Serializable(address) {
      ReparsedRecord("walletAddress", address);
    }
  }

  /** Any other answer to a handshake, the forced wallet-closed error
      included, leaves the transport disconnected and rejects with
      "Connection rejected". */
  lemma RefusedHandshake(s: State, id: Id, opens: bool, data: Json)
    requires Inv(s) && Fresh(s, id) && !HasSession(s)
    requires ResponseId(data) == Some(id) && !Accepts(data)
    ensures var s1 := Connect(s, id, opens).0;
            var s2 := HandleMessage(s1, s.walletOrigin, data);
            var s3 := HandleWalletClosed(s1);
            && s2.conn == Disconnected && s2.settled[id] == Rejected(Str(ConnectionRejected))
            && s3.conn == Disconnected && s3.settled[id] == Rejected(Str(ConnectionRejected))
            && id !in s2.pending && id !in s3.pending
  {
    var s1 := Connect(s, id, opens).0;
    assert s1.callbacks[id] == OnConnection;
    assert OnConnection in s1.callbacks.Values;
  }

  /** A blocked popup during `connect` is never reported by the open call;
      the handshake stays pending until the liveness check finds no window,
      which then rejects it with "Connection rejected". */
  lemma BlockedHandshakeRejectedByLivenessCheck(s: State, id: Id)
    requires Inv(s) && Fresh(s, id) && !HasSession(s) && s.window != Live
    ensures var s1 := Connect(s, id, false).0;
            && s1.window == NoWindow && id in s1.callbacks && s1.checking
            && var s2 := PollTick(s1);
               s2.settled[id] == Rejected(Str(ConnectionRejected)) && s2.conn == Disconnected
  {
    var s1 := Connect(s, id, false).0;
    assert s1.callbacks[id] == OnConnection;
    assert OnConnection in s1.callbacks.Values;
  }

  // ---------------------------------------------------------- responses

  /** A response is delivered once: after its handler runs and returns, the
      same id answered again (with any payload) changes nothing. A handler
      that throws stays registered, so the next answer runs it again. */
  lemma SecondResponseIgnored(s: State, origin: string, data: Json, again: Json)
    requires ResponseId(data).Some? && ResponseId(data).value in s.callbacks
    requires ResponseId(again) == ResponseId(data)
    ensures var s1 := HandleMessage(s, origin, data);
            && (!MessageThrows(s, origin, data) ==> HandleMessage(s1, origin, again) == s1)
            && (MessageThrows(s, origin, data) ==> ResponseId(data).value in s1.callbacks)
  {
    var s1 := HandleMessage(s, origin, data);
    var id := ResponseId(data).value;
    assert again != Str("ready");
    if origin == s.walletOrigin && !MessageThrows(s, origin, data) {
      assert id !in s1.callbacks;
    }
  }

  /** A method response settles by its `error` field: present and truthy,
      the promise rejects with `error.message`; otherwise it resolves with
      `result`. */
  lemma ResponseSettlement(s: State, origin: string, data: Json)
    requires origin == s.walletOrigin && ResponseId(data).Some?
    requires ResponseId(data).value in s.callbacks && s.callbacks[ResponseId(data).value] == OnResponse
    ensures var r := HandleMessage(s, origin, data);
            var id := ResponseId(data).value;
            && (Truthy(Get(data, "error")) ==> r.settled[id] == Rejected(Get(Get(data, "error"), "message")))
            && (!Truthy(Get(data, "error")) ==> r.settled[id] == Resolved(Get(data, "result")))
            && r.conn == s.conn
  {
    assert data != Str("ready");
  }

  // ------------------------------------------------------- window closed

  /** The liveness check finding the window gone fails every registered
      request exactly as the handlers would for a "Wallet window was closed"
      error, and leaves registry, pending set and window empty. */
  lemma LivenessCheckFailsAllPending(s: State)
    requires Inv(s) && |s.callbacks| > 0 && s.window != Live
    ensures var r := PollTick(s);
            && r.callbacks == map[] && r.pending == {} && r.window == NoWindow
            && (forall id :: id in s.pending ==> id in r.settled && r.settled[id].Rejected?)
            && (forall id :: id in s.callbacks && s.callbacks[id] == OnResponse ==>
                  r.settled[id] == Rejected(Str(WalletClosed)))
  {
    var r := PollTick(s);
    assert r == HandleWalletClosed(s);
  }

  /** `disconnect` fails everything pending, forgets the session in memory
      and in storage, and `getWalletAddress` afterwards is undefined. */
  lemma DisconnectForgetsEverything(s: State)
    requires Inv(s)
    ensures var r := Disconnect(s);
            && r.conn == Disconnected && GetWalletAddress(r) == Undefined && r.stored == None
            && r.callbacks == map[] && r.pending == {} && r.window == NoWindow
            && (forall id :: id in s.pending ==> id in r.settled && r.settled[id].Rejected?)
            && Inv(r)
  {
  }

  /** `callbacks.clear()` bypasses the observed `delete`: with requests
      pending, the liveness check stays installed after the window is found
      closed although nothing is left to watch, and each later firing of it
      changes nothing. */
  lemma ClearLeavesLivenessCheckRunning(s: State)
    requires Inv(s) && |s.callbacks| > 0
    ensures var r := HandleWalletClosed(s);
            r.checking && |r.callbacks| == 0 && PollTick(r) == r
  {
    var r := HandleWalletClosed(s);
    assert OnConnection !in r.callbacks.Values;
    assert ClosedOutcomes(r.callbacks) == map[];
    assert r.settled + map[] == r.settled;
  }

  /** Two observed `set`s in a row install a single interval. */
  lemma TwoRegistrationsOneInterval(s: State, a: Id, b: Id)
    requires !s.checking
    ensures SetCallback(SetCallback(s, a, OnResponse), b, OnResponse).intervalsStarted == s.intervalsStarted + 1
  {
  }

  // ------------------------------------------------------------- popup

  /** A request sent while the window is missing or closed opens a fresh
      window and waits: that request is not posted until the wallet origin
      says `ready`, and then it is posted after the messages queued before
      it. A message that says `ready` from any other origin posts nothing.
      Requests sent after the window opened do not wait
      (`SecondRequestBeforeReadyPostedAtOnce`). */
  lemma FreshWindowWaitsForReady(s: State, name: string, params: seq<Json>, chainId: int, id: Id, other: string)
    requires Fresh(s, id) && s.conn == Connected && s.window != Live && other != s.walletOrigin
    ensures var s1 := SendRequest(s, name, params, chainId, id, true).0;
            var m := MethodRequest(id, name, params, chainId);
            && s1.posted == s.posted
            && HandleMessage(s1, other, Str("ready")) == s1
            && HandleMessage(s1, s.walletOrigin, Str("ready")).posted == s.posted + s.awaitingReady + [m]
  {
  }

  /** The window counts as open as soon as `window.open` returns, so a
      second request on a fresh popup is posted at once, ahead of the first,
      which still waits for `ready`. */
  lemma SecondRequestBeforeReadyPostedAtOnce(s: State, name: string, params: seq<Json>, chainId: int, id: Id,
                                             name2: string, params2: seq<Json>, id2: Id)
    requires Fresh(s, id) && Fresh(s, id2) && id != id2 && s.conn == Connected && s.window != Live
    ensures var s1 := SendRequest(s, name, params, chainId, id, true).0;
            var s2 := SendRequest(s1, name2, params2, chainId, id2, true).0;
            && s2.posted == s.posted + [MethodRequest(id2, name2, params2, chainId)]
            && s2.awaitingReady == s.awaitingReady + [MethodRequest(id, name, params, chainId)]
  {
    var s1 := SendRequest(s, name, params, chainId, id, true).0;
    assert s1.window == Live && Fresh(s1, id2);
  }

  /** With the window already open, a request is posted immediately. */
  lemma OpenWindowPostsAtOnce(s: State, name: string, params: seq<Json>, chainId: int, id: Id)
    requires Fresh(s, id) && s.conn == Connected && s.window == Live
    ensures SendRequest(s, name, params, chainId, id, true).0.posted
              == s.posted + [MethodRequest(id, name, params, chainId)]
  {
  }

  /** The answer that empties the pending set schedules one auto-close, and
      its firing closes the window; a request sent before it fires keeps the
      window open, and an answer that leaves another request pending
      schedules nothing. */
  lemma LastAnswerSchedulesClose(s: State, name: string, params: seq<Json>, chainId: int, id: Id,
                                 data: Json, id2: Id)
    requires Inv(s) && Fresh(s, id) && s.conn == Connected && s.window == Live
    requires ResponseId(data) == Some(id) && Fresh(s, id2) && id2 != id
    ensures var s1 := SendRequest(s, name, params, chainId, id, true).0;
            var s2 := HandleMessage(s1, s.walletOrigin, data);
            && (s.pending == {} ==>
                  && s2.pending == {} && s2.window == Live && s2.closeTimers == s.closeTimers + 1
                  && AutoCloseFires(s2).window == NoWindow
                  && AutoCloseFires(SendRequest(s2, name, params, chainId, id2, true).0).window == Live)
            && (s.pending != {} ==> s2.closeTimers == s.closeTimers && s2.window == Live)
  {
    var s1 := SendRequest(s, name, params, chainId, id, true).0;
    assert s1.callbacks[id] == OnResponse && s1.pending == s.pending + {id};
    var s2 := HandleMessage(s1, s.walletOrigin, data);
    assert !MessageThrows(s1, s.walletOrigin, data);
    assert s2.pending == s.pending;
    assert s2 == DeleteCallback(RunCallback(s1, id, OnResponse, data), id);
    if s.pending == {} {
      assert Fresh(s2, id2);
    }
  }

  /** `ready` listeners survive the window they were installed for: after
      the liveness check clears a window that never said `ready`, a request
      on a new window gets the stale message posted along with its own. */
  lemma StaleMessagePostedToNextWindow(s: State, id: Id, name: string, params: seq<Json>, chainId: int, id2: Id)
    requires Inv(s) && s.conn == Connected && s.window != Live && Fresh(s, id) && id != id2
    requires OnConnection !in s.callbacks.Values
    requires Fresh(SendRequest(s, name, params, chainId, id, true).0, id2)
    ensures var s1 := SendRequest(s, name, params, chainId, id, true).0;
            var s2 := PollTick(WindowCloses(s1));
            var s3 := SendRequest(s2, name, params, chainId, id2, true).0;
            var s4 := HandleMessage(s3, s.walletOrigin, Str("ready"));
            && s2.settled[id] == Rejected(Str(WalletClosed))
            && MethodRequest(id, name, params, chainId) in s4.posted
            && MethodRequest(id2, name, params, chainId) in s4.posted
  {
    var s1 := SendRequest(s, name, params, chainId, id, true).0;
    assert s1.callbacks[id] == OnResponse;
    var s2 := PollTick(WindowCloses(s1));
    assert s2 == HandleWalletClosed(WindowCloses(s1));
    assert OnConnection !in s1.callbacks.Values;
    assert s2.conn == Connected && s2.window == NoWindow;
    var m1, m2 := MethodRequest(id, name, params, chainId), MethodRequest(id2, name, params, chainId);
    assert m1 in s2.awaitingReady by { assert s1.awaitingReady == s.awaitingReady + [m1]; }
    var s3 := SendRequest(s2, name, params, chainId, id2, true).0;
    assert s3.window == Live && s3.awaitingReady == s2.awaitingReady + [m2];
    var s4 := HandleMessage(s3, s.walletOrigin, Str("ready"));
    assert s4.posted == s3.posted + s3.awaitingReady;
  }
}
