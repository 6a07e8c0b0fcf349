/** Properties of the `request` dispatcher, alone and together with the
    transport it drives. */
module ProviderProperties {
  import opened Values
  import T = Transport
  import C = ChainId
  import opened Provider
  import TP = TransportProperties

  // ------------------------------------------------------------ accounts

  /** `eth_accounts` is a pure read: it never reaches the transport and
      answers the cached address, no address when there is none, and throws
      when what is cached is not an address. */
  lemma AccountsIsPureRead(p: Provider, params: Option<seq<Json>>, id: T.Id, opens: bool)
    ensures var r := Request(p, "eth_accounts", params, id, opens);
            var address := T.GetWalletAddress(p.transport);
            && r.0 == p
            && (r.1 == Return(Accounts([])) <==> !Truthy(address))
            && (r.1 == Return(Accounts([address])) <==> IsAddress(address))
            && (Truthy(address) && !IsAddress(address) ==> r.1 == Throw(InvalidAddress))
  {
  }

  /** `eth_requestAccounts` connects only when no address is cached, and a
      refused connection is re-thrown unchanged. */
  lemma RequestAccountsConnectsOnlyWithoutAddress(p: Provider, params: Option<seq<Json>>, id: T.Id, opens: bool)
    requires T.Fresh(p.transport, id)
    ensures var r := Request(p, "eth_requestAccounts", params, id, opens);
            var address := T.GetWalletAddress(p.transport);
            && (Truthy(address) ==>
                  r == (p, if IsAddress(address) then Return(Accounts([address])) else Throw(InvalidAddress)))
            && (!Truthy(address) ==> r.0.transport == T.Connect(p.transport, id, opens).0)
            && (r.0.transport != p.transport ==> !Truthy(address) && r.1 == Await(id, AfterConnect))
            && (forall reason :: Resume(AfterConnect, T.Rejected(reason)) == Throw(Rethrown(reason)))
  {
  }

  /** After `disconnect` the provider reports no account, `eth_requestAccounts`
      starts a new handshake, and sends fail until it completes. */
  lemma DisconnectThenReconnects(p: Provider, ps: seq<Json>, id: T.Id, opens: bool)
    requires T.Fresh(Disconnect(p).transport, id)
    ensures var q := Disconnect(p);
            && Request(q, "eth_accounts", None, id, opens) == (q, Return(Accounts([])))
            && Request(q, "eth_requestAccounts", None, id, opens).1 == Await(id, AfterConnect)
            && Request(q, "eth_sendTransaction", Some(ps), id, opens) == (q, Throw(SendFailed))
  {
    var q := Disconnect(p);
    var address := T.GetWalletAddress(q.transport);
    assert q.transport.conn == T.Disconnected && !Truthy(address) && !T.HasSession(q.transport);
    assert Request(q, "eth_accounts", None, id, opens) == (q, Return(Accounts([])));
    assert T.Connect(q.transport, id, opens).1 == T.Later(id);
    assert Request(q, "eth_requestAccounts", None, id, opens).1 == Continue(T.Later(id), AfterConnect);
    var sent := T.SendRequest(q.transport, "eth_sendTransaction", ps, q.chainId, id, opens);
    assert sent == (q.transport, T.Now(T.Rejected(Str(T.NotConnected))));
    assert Request(q, "eth_sendTransaction", Some(ps), id, opens) == (q, Continue(sent.1, AfterSend(ps)));
  }

  /** On a fresh connection, the accepted handshake's address is what
      `eth_requestAccounts` answers, provided `getAddress` accepts it; an
      acceptance without an address makes the call throw. An address
      `JSON.stringify` refuses leaves the call awaiting: `connect` never
      settles while its handler stays registered. */
  lemma RequestAccountsAfterHandshake(p: Provider, id: T.Id, opens: bool, address: Json)
    requires T.Inv(p.transport) && T.Fresh(p.transport, id) && p.transport.conn != T.Connected
    requires !Truthy(T.GetWalletAddress(p.transport))
    ensures var r := Request(p, "eth_requestAccounts", None, id, opens);
            var t := T.HandleMessage(r.0.transport, p.transport.walletOrigin, TP.Acceptance(id, address));
            && r.1 == Await(id, AfterConnect)
            && (Serializable(address) ==>
                  && id in t.settled
                  && Resume(AfterConnect, t.settled[id])
                     == if IsAddress(address) then Return(Accounts([address])) else Throw(InvalidAddress))
            && (!Serializable(address) ==> id !in t.settled && id in t.callbacks)
  {
    var r := Request(p, "eth_requestAccounts", None, id, opens);
    var data := TP.Acceptance(id, address);
    var t0 := r.0.transport;
    assert t0 == T.Connect(p.transport, id, opens).0;
    assert t0.callbacks[id] == T.OnConnection && t0.walletOrigin == p.transport.walletOrigin;
    var session := Record("walletAddress", address);
    if Serializable(address) {
      assert !T.MessageThrows(t0, t0.walletOrigin, data);
      assert T.HandleMessage(t0, t0.walletOrigin, data).settled[id] == T.Resolved(session);
      assert !Nullish(session) && Get(session, "walletAddress") == address;
    } else {
      assert T.MessageThrows(t0, t0.walletOrigin, data);
    }
  }

  // --------------------------------------------------------------- chains

  /** `wallet_switchEthereumChain` with an argument that normalises to a
      non-negative id answers `null` without touching the transport, and
      `eth_chainId` then answers that id's QUANTITY. */
  lemma SwitchThenChainId(p: Provider, params: Option<seq<Json>>, id: T.Id, opens: bool)
    requires SwitchArgument(params).Some?
    requires C.Normalize(SwitchArgument(params).value).Number?
    requires C.Normalize(SwitchArgument(params).value).n >= 0
    ensures var n := C.Normalize(SwitchArgument(params).value).n;
            var r := Request(p, "wallet_switchEthereumChain", params, id, opens);
            && r.1 == Return(Value(Null)) && r.0.transport == p.transport
            && r.0.chainId == n && r.0.readNetwork == NetworkName(p.networks, n)
            && Request(r.0, "eth_chainId", None, id, opens) == (r.0, Return(Value(Str(C.Quantity(n)))))
  {
  }

  /** Switching with the EIP-3326 shape `[{chainId: "0x…"}]` carrying a
      QUANTITY makes `eth_chainId` answer that same QUANTITY. */
  lemma SwitchByQuantityRoundTrip(p: Provider, n: nat, id: T.Id, opens: bool)
    ensures var r := Request(p, "wallet_switchEthereumChain", Some([Record("chainId", Str(C.Quantity(n)))]), id, opens);
            && r.1 == Return(Value(Null)) && r.0.chainId == n
            && Request(r.0, "eth_chainId", None, id, opens).1 == Return(Value(Str(C.Quantity(n))))
  {
    C.NormalizeRoundTrip(n);
    var hex := [Record("chainId", Str(C.Quantity(n)))];
    assert SwitchArgument(Some(hex)) == Some(Str(C.Quantity(n)));
    SwitchThenChainId(p, Some(hex), id, opens);
  }

  /** Switching with the decimal string of an id selects that id too. */
  lemma SwitchByDecimalRoundTrip(p: Provider, n: nat, id: T.Id, opens: bool)
    ensures var r := Request(p, "wallet_switchEthereumChain", Some([Record("chainId", Str(C.DecDigits(n)))]), id, opens);
            && r.1 == Return(Value(Null)) && r.0.chainId == n
            && Request(r.0, "eth_chainId", None, id, opens).1 == Return(Value(Str(C.Quantity(n))))
  {
    C.NormalizeRoundTrip(n);
    var dec := [Record("chainId", Str(C.DecDigits(n)))];
    assert SwitchArgument(Some(dec)) == Some(Str(C.DecDigits(n)));
    SwitchThenChainId(p, Some(dec), id, opens);
  }

  /** `eth_chainId` answers a well-formed QUANTITY, and handing that answer
      back to `wallet_switchEthereumChain` leaves the chain where it was. */
  lemma ChainIdAnswerRoundTrip(p: Provider, id: T.Id, opens: bool)
    ensures var a := Request(p, "eth_chainId", None, id, opens).1;
            && a.Return? && a.answer.Value? && a.answer.v.Str? && C.IsQuantity(a.answer.v.s)
            && var back := Request(p, "wallet_switchEthereumChain", Some([Record("chainId", a.answer.v)]), id, opens);
               back.1 == Return(Value(Null)) && back.0.chainId == p.chainId
  {
    C.QuantityWellFormed(p.chainId);
    SwitchByQuantityRoundTrip(p, p.chainId, id, opens);
  }

  /** A chain id that normalises to `NaN` still replaces the read-only
      client (with the one for network `undefined`) before failing, so the
      client no longer follows the chain `eth_chainId` reports. A network
      name passed as the chain id is such an argument. */
  lemma FailedSwitchStillRebindsClient(p: Provider, params: Option<seq<Json>>, id: T.Id, opens: bool)
    requires SwitchArgument(params).Some? && C.Normalize(SwitchArgument(params).value) == C.NotANumber
    ensures var r := Request(p, "wallet_switchEthereumChain", params, id, opens);
            && r.1 == Unmodelled && r.0.chainId == p.chainId && r.0.readNetwork == None
            && r.0.transport == p.transport
            && Request(r.0, "eth_chainId", None, id, opens).1 == Return(Value(Str(C.Quantity(p.chainId))))
    ensures C.Normalize(Get(Record("chainId", Str("mainnet")), "chainId")) == C.NotANumber
  {
    C.NoLeadingDigitIsNaN("mainnet");
  }

  // ---------------------------------------------------- send and sign

  /** How an `eth_sendTransaction` response maps: a receipt with data yields
      its transaction hash; a code that is neither known value falls through
      to the JSON-RPC forward; everything else — a reported
      `transactionFailed` included — is the fixed "wallet window was closed"
      error. */
  lemma SendResponseMapping(ps: seq<Json>, st: T.Settlement)
    ensures var o := Resume(AfterSend(ps), st);
            var receipt := st.Resolved? && !Nullish(st.value)
                           && Get(st.value, "code") == Str("transactionReceipt")
                           && !Nullish(Get(st.value, "data"));
            var unknown := st.Resolved? && !Nullish(st.value)
                           && Get(st.value, "code") != Str("transactionReceipt")
                           && Get(st.value, "code") != Str("transactionFailed");
            && (o.Return? <==> receipt)
            && (receipt ==> o == Return(Value(Get(Get(st.value, "data"), "txHash"))))
            && (o.Forward? <==> unknown)
            && (unknown ==> o == Forward("eth_sendTransaction", ps))
            && (!receipt && !unknown ==> o == Throw(SendFailed))
  {
  }

  /** How a signing response maps: `data.signature` when the response and
      its data are present, and the fixed "Unable to sign" error otherwise. */
  lemma SignResponseMapping(st: T.Settlement)
    ensures var o := Resume(AfterSign, st);
            var ok := st.Resolved? && !Nullish(st.value) && !Nullish(Get(st.value, "data"));
            && (ok ==> o == Return(Value(Get(Get(st.value, "data"), "signature"))))
            && (!ok ==> o == Throw(SignFailed))
  {
  }

  /** Before a connection exists, every send or sign call fails at once with
      its fixed message and changes nothing. */
  lemma SendBeforeConnectFails(p: Provider, name: string, ps: seq<Json>, id: T.Id, opens: bool)
    requires p.transport.conn != T.Connected
    requires name == "eth_sendTransaction" || IsSignMethod(name)
    ensures Request(p, name, Some(ps), id, opens)
              == (p, Throw(if name == "eth_sendTransaction" then SendFailed else SignFailed))
  {
  }

  /** Transport calls carry the provider's current chain id: with the window
      open, the request posted is exactly the method, its params and
      `getChainId()`. */
  lemma SendCarriesChainId(p: Provider, name: string, ps: seq<Json>, id: T.Id, opens: bool)
    requires T.Fresh(p.transport, id) && p.transport.conn == T.Connected && p.transport.window == T.Live
    requires name == "eth_sendTransaction" || IsSignMethod(name)
    ensures var r := Request(p, name, Some(ps), id, opens);
            && r.0.transport.posted == p.transport.posted + [T.MethodRequest(id, name, ps, p.chainId)]
            && r.1.Await? && r.1.id == id
  {
  }

  /** The wallet's answer to request `id` with `result` as payload. */
  function ResultMessage(id: T.Id, result: Json): (data: Json)
    ensures T.ResponseId(data) == Some(id) && Get(data, "result") == result && !Truthy(Get(data, "error"))
  {
    Obj(map["id" := Str(id), "result" := result])
  }

  /** The settlement a registered request receives from a result answer. */
  lemma AnsweredRequestResolves(t: T.State, id: T.Id, result: Json)
    requires id in t.callbacks && t.callbacks[id] == T.OnResponse
    ensures var t' := T.HandleMessage(t, t.walletOrigin, ResultMessage(id, result));
            id in t'.settled && t'.settled[id] == T.Resolved(result)
  {
    var data := ResultMessage(id, result);
    assert data != Str("ready");
    assert T.Outcome(T.OnResponse, data) == T.Resolved(result);
  }

  /** With the window open, `eth_sendTransaction` registers its id for a
      response and awaits it. */
  lemma SendRegistersResponse(p: Provider, ps: seq<Json>, id: T.Id)
    requires T.Fresh(p.transport, id) && p.transport.conn == T.Connected && p.transport.window == T.Live
    ensures var r := Request(p, "eth_sendTransaction", Some(ps), id, true);
            && r.1 == Await(id, AfterSend(ps))
            && id in r.0.transport.callbacks && r.0.transport.callbacks[id] == T.OnResponse
            && r.0.transport.walletOrigin == p.transport.walletOrigin
  {
    var r := Request(p, "eth_sendTransaction", Some(ps), id, true);
    assert r.0.transport == T.SendRequest(p.transport, "eth_sendTransaction", ps, p.chainId, id, true).0;
  }

  /** A transaction the wallet reports with a receipt yields its hash. */
  lemma ReceiptYieldsHash(p: Provider, ps: seq<Json>, id: T.Id, hash: Json)
    requires T.Fresh(p.transport, id) && p.transport.conn == T.Connected && p.transport.window == T.Live
    ensures var r := Request(p, "eth_sendTransaction", Some(ps), id, true);
            var ok := ResultMessage(id, Obj(map["code" := Str("transactionReceipt"), "data" := Record("txHash", hash)]));
            && r.1 == Await(id, AfterSend(ps))
            && Resume(AfterSend(ps), T.HandleMessage(r.0.transport, p.transport.walletOrigin, ok).settled[id])
               == Return(Value(hash))
  {
    var r := Request(p, "eth_sendTransaction", Some(ps), id, true);
    var result := Obj(map["code" := Str("transactionReceipt"), "data" := Record("txHash", hash)]);
    SendRegistersResponse(p, ps, id);
    AnsweredRequestResolves(r.0.transport, id, result);
    ReceiptResumes(ps, hash);
  }

  /** The `transactionReceipt` branch of the response mapping. */
  lemma ReceiptResumes(ps: seq<Json>, hash: Json)
    ensures var result := Obj(map["code" := Str("transactionReceipt"), "data" := Record("txHash", hash)]);
            Resume(AfterSend(ps), T.Resolved(result)) == Return(Value(hash))
  {
    var result := Obj(map["code" := Str("transactionReceipt"), "data" := Record("txHash", hash)]);
    assert Get(result, "code") == Str("transactionReceipt");
    assert Get(result, "data") == Record("txHash", hash);
  }

  /** A transaction the wallet reports as `transactionFailed` surfaces as
      "wallet window was closed", not with the wallet's reason. */
  lemma TransactionFailedLosesReason(p: Provider, ps: seq<Json>, id: T.Id, reason: Json)
    requires T.Fresh(p.transport, id) && p.transport.conn == T.Connected && p.transport.window == T.Live
    ensures var r := Request(p, "eth_sendTransaction", Some(ps), id, true);
            var failed := ResultMessage(id, Obj(map["code" := Str("transactionFailed"), "data" := Record("error", reason)]));
            && r.1 == Await(id, AfterSend(ps))
            && Resume(AfterSend(ps), T.HandleMessage(r.0.transport, p.transport.walletOrigin, failed).settled[id])
               == Throw(SendFailed)
  {
    var r := Request(p, "eth_sendTransaction", Some(ps), id, true);
    var result := Obj(map["code" := Str("transactionFailed"), "data" := Record("error", reason)]);
    SendRegistersResponse(p, ps, id);
    AnsweredRequestResolves(r.0.transport, id, result);
    assert Get(result, "code") == Str("transactionFailed");
    assert Resume(AfterSend(ps), T.Resolved(result)) == Throw(SendFailed);
  }

  /** A send whose popup is closed before any answer fails with "wallet
      window was closed" once the liveness check notices; so does one whose
      popup could not be opened at all. */
  lemma SendThenWindowClosed(p: Provider, ps: seq<Json>, id: T.Id, opens: bool)
    requires T.Inv(p.transport) && T.Fresh(p.transport, id) && p.transport.conn == T.Connected
    ensures var r := Request(p, "eth_sendTransaction", Some(ps), id, opens);
            var t := T.PollTick(T.WindowCloses(r.0.transport));
            && r.1 == Await(id, AfterSend(ps))
            && id in t.settled && Resume(AfterSend(ps), t.settled[id]) == Throw(SendFailed)
  {
    var r := Request(p, "eth_sendTransaction", Some(ps), id, opens);
    var m := T.MethodRequest(id, "eth_sendTransaction", ps, GetChainId(p));
    assert r.0.transport == T.StartRequest(p.transport, m, opens);
    var t1 := T.WindowCloses(r.0.transport);
    if id in r.0.transport.callbacks {
      assert t1.checking && t1.window != T.Live;
      assert T.PollTick(t1) == T.HandleWalletClosed(t1);
    } else {
      assert r.0.transport.settled[id] == T.Rejected(Str(T.PopupBlocked));
    }
  }
}
