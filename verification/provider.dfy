/** The EIP-1193 `request` dispatcher of the wallet provider
    (`SequenceWaasTransportProvider.request`): an ordered chain of method
    names routed to a local answer, to the transport followed by a mapping of
    its response, or to the read-only JSON-RPC client. */
module Provider {
  import opened Values
  import T = Transport
  import C = ChainId

  /** The provider's own state: the transport, the current network's chain
      id, the network name the read-only client was built for (`None` when
      the network directory has no entry, which builds a URL naming
      `undefined`), and the network directory itself (uninterpreted). */
  datatype Provider = Provider(
    transport: T.State,
    chainId: nat,
    readNetwork: Option<string>,
    networks: map<int, string>)

  /** A value the caller receives. `Accounts` lists raw addresses; the source
      passes each through the EIP-55 checksum of `getAddress`. */
  datatype Answer = Value(v: Json) | Accounts(raw: seq<Json>)

  /** The errors `request` throws. */
  datatype Failure =
    | NoParams
    | SendFailed          // "Unable to send transaction: wallet window was closed."
    | SignFailed          // "Unable to sign: wallet window was closed."
    | TypeError           // a property read on `undefined` or `null`
    | InvalidAddress      // `getAddress` refuses a value that is not an address
    | Rethrown(reason: Json)

  /** What to do with the transport's settlement once it arrives. */
  datatype Continuation = AfterConnect | AfterSend(params: seq<Json>) | AfterSign

  /** How a `request` call ends, or what it waits on. `Unmodelled` is a call
      whose result `ethers.Network.from` decides for a chain id that is not
      a non-negative integer. */
  datatype Outcome =
    | Return(answer: Answer)
    | Throw(failure: Failure)
    | Await(id: T.Id, next: Continuation)
    | Forward(methodName: string, params: seq<Json>)
    | Unmodelled

  predicate IsSignMethod(m: string) {
    m == "eth_sign" || m == "eth_signTypedData" || m == "eth_signTypedData_v4" || m == "personal_sign"
  }

  /** `allNetworks.find((n) => n.chainId === chainId)?.name`: the network
      name the read-only client's URL is built from. */
  function NetworkName(networks: map<int, string>, chainId: int): Option<string> {
    if chainId in networks then Some(networks[chainId]) else None
  }

  /** The address test `getAddress` applies before checksumming (viem's
      non-strict `isAddress`): a string of `0x` and forty hex digits. */
  predicate IsAddress(v: Json) {
    v.Str? && |v.s| == 42 && v.s[..2] == "0x" && C.AllDigits(v.s[2..], 16)
  }

  /** `[getAddress(address)]`: one account, or the exception `getAddress`
      throws for anything that is not an address. */
  function AccountsOf(address: Json): (o: Outcome)
    ensures o == Return(Accounts([address])) <==> IsAddress(address)
    ensures !IsAddress(address) ==> o == Throw(InvalidAddress)
  {
    if IsAddress(address) then Return(Accounts([address])) else Throw(InvalidAddress)
  }

  /** The constructor: a transport for the wallet origin (loading any stored
      session) and a read-only client for the initial chain's network. */
  function NewProvider(walletOrigin: string, stored: Option<Json>, initialChainId: nat, networks: map<int, string>)
    : (p: Provider)
    ensures T.Inv(p.transport) && p.chainId == initialChainId && p.networks == networks
    ensures p.readNetwork == NetworkName(networks, initialChainId)
    ensures p.transport.pending == {} && (p.transport.conn == T.Connected <==> stored.Some?)
  {
    Provider(T.Init(walletOrigin, stored), initialChainId, NetworkName(networks, initialChainId), networks)
  }

  /** The methods `request` intercepts; everything else is forwarded. */
  predicate Intercepted(m: string) {
    m == "eth_requestAccounts" || m == "wallet_switchEthereumChain" || m == "eth_chainId"
    || m == "eth_accounts" || m == "eth_sendTransaction" || IsSignMethod(m)
  }

  /** `getChainId`: the chain id transport calls carry. */
  function GetChainId(p: Provider): (c: int)
    ensures c == p.chainId as int
  {
    p.chainId
  }

  /** Mapping the settlement of an awaited transport call to the end of the
      `request` call. */
  function Resume(k: Continuation, st: T.Settlement): (o: Outcome)
    ensures !o.Await? && !o.Unmodelled?
    ensures k == AfterConnect && st.Rejected? ==> o == Throw(Rethrown(st.reason))
    ensures k == AfterConnect && st.Resolved? ==> o.Return? || o == Throw(TypeError) || o == Throw(InvalidAddress)
    ensures k == AfterConnect && o.Return? ==>
              o.answer.Accounts? && |o.answer.raw| == 1 && IsAddress(o.answer.raw[0])
    ensures k.AfterSend? ==> o.Throw? ==> o.failure == SendFailed
    ensures k.AfterSign? ==> o.Throw? ==> o.failure == SignFailed
    ensures o.Forward? ==> k.AfterSend? && o == Forward("eth_sendTransaction", k.params)
  {
    match k
    case AfterConnect =>
      (match st
       case Rejected(reason) => Throw(Rethrown(reason))
       case Resolved(res) =>
         if Nullish(res) then Throw(TypeError) else AccountsOf(Get(res, "walletAddress")))
    case AfterSend(params) =>
      (match st
       case Rejected(_) => Throw(SendFailed)
       case Resolved(response) =>
         if Nullish(response) then Throw(SendFailed)
         else
           var code := Get(response, "code");
           if code == Str("transactionFailed") then Throw(SendFailed)
           else if code == Str("transactionReceipt") then
             var data := Get(response, "data");
             if Nullish(data) then Throw(SendFailed) else Return(Value(Get(data, "txHash")))
           else Forward("eth_sendTransaction", params))
    case AfterSign =>
      (match st
       case Rejected(_) => Throw(SignFailed)
       case Resolved(response) =>
         if Nullish(response) then Throw(SignFailed)
         else
           var data := Get(response, "data");
           if Nullish(data) then Throw(SignFailed) else Return(Value(Get(data, "signature"))))
  }

  /** A transport call's immediate answer as the outcome of `request`. */
  function Continue(call: T.Call, k: Continuation): (o: Outcome)
    ensures call.Later? ==> o == Await(call.id, k)
    ensures call.Now? ==> o == Resume(k, call.settlement)
  {
    match call
    case Now(st) => Resume(k, st)
    case Later(id) => Await(id, k)
  }

  /** The argument `normalizeChainId` receives: `params?.[0].chainId`. An
      absent `params` short-circuits to `undefined`; a missing or nullish
      first element throws. */
  function SwitchArgument(params: Option<seq<Json>>): (r: Option<Json>)
    ensures params.None? ==> r == Some(Undefined)
    ensures params.Some? && |params.value| > 0 && !Nullish(params.value[0]) ==>
              r == Some(Get(params.value[0], "chainId"))
    ensures r.None? <==> params.Some? && (|params.value| == 0 || Nullish(params.value[0]))
  {
    match params
    case None => Some(Undefined)
    case Some(ps) => if |ps| == 0 || Nullish(ps[0]) then None else Some(Get(ps[0], "chainId"))
  }

  /** `wallet_switchEthereumChain`: the read-only client is rebuilt for the
      normalised id before the network is set, so a chain id that fails later
      has already replaced the client. */
  function SwitchChain(p: Provider, params: Option<seq<Json>>): (r: (Provider, Outcome))
    ensures r.0.transport == p.transport && r.0.networks == p.networks
    ensures r.1 == Throw(TypeError) <==>
              SwitchArgument(params).None? || C.Normalize(SwitchArgument(params).value).TypeErrorThrown?
    ensures r.1 != Throw(TypeError) ==>
              var v := C.Normalize(SwitchArgument(params).value);
              r.0.readNetwork == if v.Number? then NetworkName(p.networks, v.n) else None
    ensures r.1 != Return(Value(Null)) ==> r.0.chainId == p.chainId
    ensures r.1 == Return(Value(Null)) <==>
              SwitchArgument(params).Some? && C.Normalize(SwitchArgument(params).value).Number?
              && C.Normalize(SwitchArgument(params).value).n >= 0
    ensures r.1 == Return(Value(Null)) ==> r.0.chainId == C.Normalize(SwitchArgument(params).value).n
    ensures r.1 == Throw(TypeError) ==> r.0 == p
    ensures r.1 == Return(Value(Null)) || r.1 == Throw(TypeError) || r.1 == Unmodelled
  {
    match SwitchArgument(params)
    case None => (p, Throw(TypeError))
    case Some(arg) =>
      match C.Normalize(arg)
      case TypeErrorThrown => (p, Throw(TypeError))
      case Number(n) =>
        var p1 := p.(readNetwork := NetworkName(p.networks, n));
        if n >= 0 then (p1.(chainId := n), Return(Value(Null))) else (p1, Unmodelled)
      case _ => (p.(readNetwork := None), Unmodelled)
  }

  /** `disconnect`: the transport forgets its session and fails everything
      pending; the current chain and the read-only client are kept. */
  function Disconnect(p: Provider): (r: Provider)
    ensures r.chainId == p.chainId && r.readNetwork == p.readNetwork && r.networks == p.networks
    ensures r.transport.conn == T.Disconnected && !Truthy(T.GetWalletAddress(r.transport))
    ensures r.transport.pending == {} && r.transport.stored == None
    ensures T.Inv(p.transport) ==> T.Inv(r.transport)
  {
    p.(transport := T.Disconnect(p.transport))
  }

  /** Whether `request` reaches a transport call that draws an id from
      `crypto.randomUUID`: a handshake, or a send or sign while connected. */
  predicate DrawsId(p: Provider, methodName: string, params: Option<seq<Json>>) {
    || (methodName == "eth_requestAccounts" && !Truthy(T.GetWalletAddress(p.transport)) && !T.HasSession(p.transport))
    || ((methodName == "eth_sendTransaction" || IsSignMethod(methodName)) && params.Some?
        && p.transport.conn == T.Connected)
  }

  /** `request({method, params})`. `id` and `opens` are what
      `crypto.randomUUID` and `window.open` yield if the call reaches the
      transport. */
  function Request(p: Provider, methodName: string, params: Option<seq<Json>>, id: T.Id, opens: bool)
    : (r: (Provider, Outcome))
    requires DrawsId(p, methodName, params) ==> T.Fresh(p.transport, id)
    ensures !Intercepted(methodName) ==> r == (p, Forward(methodName, params.GetOr([])))
    ensures methodName in {"eth_chainId", "eth_accounts", "wallet_switchEthereumChain"} ==>
              r.0.transport == p.transport && !r.1.Await? && !r.1.Forward?
    ensures (methodName == "eth_sendTransaction" || IsSignMethod(methodName)) && params.None? ==>
              r == (p, Throw(NoParams))
    ensures r.0.networks == p.networks
  {
    if methodName == "eth_requestAccounts" then
      var address := T.GetWalletAddress(p.transport);
      if Truthy(address) then (p, AccountsOf(address))
      else
        var (t, call) := T.Connect(p.transport, id, opens);
        (p.(transport := t), Continue(call, AfterConnect))
    else if methodName == "wallet_switchEthereumChain" then SwitchChain(p, params)
    else if methodName == "eth_chainId" then (p, Return(Value(Str(C.Quantity(p.chainId)))))
    else if methodName == "eth_accounts" then
      var address := T.GetWalletAddress(p.transport);
      (p, if Truthy(address) then AccountsOf(address) else Return(Accounts([])))
    else if methodName == "eth_sendTransaction" || IsSignMethod(methodName) then
      match params
      case None => (p, Throw(NoParams))
      case Some(ps) =>
        var (t, call) := T.SendRequest(p.transport, methodName, ps, GetChainId(p), id, opens);
        (p.(transport := t), Continue(call, if methodName == "eth_sendTransaction" then AfterSend(ps) else AfterSign))
    else (p, Forward(methodName, params.GetOr([])))
  }
}
