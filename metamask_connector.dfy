/** `com.margelo.nitro.nitrometamask.HybridMetamaskConnector`: the simpler
    Android connector. Its context comes from a companion slot set by the
    package, its client is built once with the fixed dapp URL, `connect`
    passes the chain id through as text, and `signMessage` goes through the
    SDK's `connectSign` with no account check of its own. */
module MetamaskConnector {
  import opened Common
  import opened ChainId
  import opened AndroidPlatform
  import opened AndroidSdk
  import opened ResultNormalizer
  import opened SessionLifecycle
  import opened NitroMetamaskLogic

  const ContextMissing: string :=
    "ReactApplicationContext not initialized. Make sure NitroMetamaskPackage is properly registered."
  const ConnectFallback: string := "Failed to connect to MetaMask"
  const SignFallback: string := "Failed to sign message"
  const UnexpectedConnect: string := "Unexpected result type from MetaMask connect"
  const UnexpectedSign: string := "Unexpected result type from MetaMask signMessage"

  /** The connector's `ConnectResult`: the chain id stays text. */
  datatype ConnectorResult = ConnectorResult(address: string, chainId: string)

  /** The SDK error this connector reads is never null (`result.error.message`). */
  predicate ErrorPresent(r: Result) {
    r.Error? ==> r.error.Some?
  }

  /** `connect`'s `when (result)`. */
  function ConnectorConnectOutcome(r: Result, address: Option<string>, chainId: Option<string>): (o: Outcome<ConnectorResult>)
    requires ErrorPresent(r)
    ensures o.Ok? <==> r.Item? && address.Some? && chainId.Some?
    ensures o.Ok? ==> o.value == ConnectorResult(address.value, chainId.value)
    ensures r.Item? && address.None? ==> o == Err(IllegalState(NoAddress))
    ensures r.Item? && address.Some? && chainId.None? ==> o == Err(IllegalState(NoChainId))
    ensures r.Error? ==> o == Err(Thrown(r.error.value.message.GetOr(ConnectFallback)))
    ensures r.ItemMap? || r.Items? ==> o == Err(IllegalState(UnexpectedConnect))
  {
    match r
    case Item(_) =>
      if address.None? then Err(IllegalState(NoAddress))
      else if chainId.None? then Err(IllegalState(NoChainId))
      else Ok(ConnectorResult(address.value, chainId.value))
    case Error(e) => Err(Thrown(e.value.message.GetOr(ConnectFallback)))
    case _ => Err(IllegalState(UnexpectedConnect))
  }

  /** `signMessage`'s `when (result)` over the answer to `connectSign`. */
  function ConnectorSignOutcome(r: Result): (o: Outcome<string>)
    requires ErrorPresent(r)
    ensures o.Ok? <==> r.Item? && r.value.Str?
    ensures o.Ok? ==> o.value == r.value.s
    ensures r.Item? && !r.value.Str? ==> o == Err(IllegalState(InvalidSignature))
    ensures r.Error? ==> o == Err(Thrown(r.error.value.message.GetOr(SignFallback)))
    ensures r.ItemMap? || r.Items? ==> o == Err(IllegalState(UnexpectedSign))
  {
    match r
    case Item(v) => if v.Str? then Ok(v.s) else Err(IllegalState(InvalidSignature))
    case Error(e) => Err(Thrown(e.value.message.GetOr(SignFallback)))
    case _ => Err(IllegalState(UnexpectedSign))
  }

  /** Whenever the session bridge's `connect` succeeds, so does the
      connector's, with the same address and a chain id text that the session
      bridge reads as the number it reported. */
  lemma ConnectorAcceptsWhatBridgeAccepts(r: Result, address: Option<string>, chainId: Option<string>)
    requires ErrorPresent(r)
    requires ConnectOutcome(r, address, chainId).Ok?
    ensures ConnectorConnectOutcome(r, address, chainId).Ok?
    ensures ConnectorConnectOutcome(r, address, chainId).value.address == ConnectOutcome(r, address, chainId).value.address
    ensures ParseChainId(ConnectorConnectOutcome(r, address, chainId).value.chainId)
            == Some(ConnectOutcome(r, address, chainId).value.chainId)
  {
  }

  /** The converse fails: the connector passes on a chain id that does not
      parse, where the session bridge refuses it. */
  lemma ConnectorPassesMalformedChainId(v: Value, address: string)
    ensures ConnectorConnectOutcome(Item(v), Some(address), Some("0xzz")) == Ok(ConnectorResult(address, "0xzz"))
    ensures ConnectOutcome(Item(v), Some(address), Some("0xzz")) == Err(IllegalState(InvalidChainId("0xzz")))
  {
    MalformedChainIdsRefused();
  }

  /** Both Android signers accept exactly a String item and return it; they
      differ in the kind of exception for a non-String item. */
  lemma SignersAgreeOnSignatures(r: Result)
    requires ErrorPresent(r)
    ensures ConnectorSignOutcome(r).Ok? <==> SignatureOf(r, Operation.SignMessage).Ok?
    ensures ConnectorSignOutcome(r).Ok? ==> ConnectorSignOutcome(r).value == SignatureOf(r, Operation.SignMessage).value
    ensures r.Item? && !r.value.Str? ==>
              ConnectorSignOutcome(r) == Err(IllegalState(InvalidSignature))
              && SignatureOf(r, Operation.SignMessage) == Err(Thrown(InvalidSignature))
  {
  }

  /** The companion object: the React context the package hands over. */
  class Companion {
    var reactContext: Option<Context>

    constructor()
      ensures reactContext == None
    {
      reactContext := None;
    }

    /** `setReactContext(context)`: replaces the stored context. */
    method SetReactContext(context: Context)
      modifies this
      ensures reactContext == Some(context)
    {
      reactContext := Some(context);
    }
  }

  class HybridMetamaskConnector {
    const companion: Companion
    /** The `by lazy` client: null until the first successful access. */
    var client: Ethereum?

    constructor(companion: Companion)
      ensures this.companion == companion && client == null
    {
      this.companion := companion;
      client := null;
    }

    /** The lazy `ethereum`: built once from the application context of the
        stored React context and the fixed URL; without a context it throws and
        stays unset. */
    method GetEthereum() returns (r: Outcome<Ethereum>)
      modifies this
      ensures old(client) != null ==> r == Ok(old(client)) && client == old(client)
      ensures old(client) == null && companion.reactContext.None? ==> r == Err(IllegalState(ContextMissing)) && client == null
      ensures old(client) == null && companion.reactContext.Some? ==>
                r.Ok? && fresh(r.value) && client == r.value && r.value.dappUrl == DefaultDappUrl
                && r.value.Current() == LiveState(None, None, None)
                && r.value.context == ApplicationContext(companion.reactContext.value)
    {
      if client == null {
        match companion.reactContext {
          case None =>
            return Err(IllegalState(ContextMissing));
          case Some(c) =>
            client := new Ethereum(ApplicationContext(c), DefaultDappUrl);
        }
      }
      r := Ok(client);
    }

    /** `connect()`: the SDK's answer, then the client's address and chain id
        as `after` shows them. */
    method Connect(answer: Result, after: LiveState) returns (r: Outcome<ConnectorResult>)
      requires ErrorPresent(answer)
      modifies this, client
      ensures old(client) == null && companion.reactContext.None? ==> r == Err(IllegalState(ContextMissing))
      ensures old(client) != null || companion.reactContext.Some? ==>
                r == ConnectorConnectOutcome(answer, after.selectedAddress, after.chainId)
      ensures old(client) == null && companion.reactContext.None? ==> client == null
      ensures old(client) != null ==> client == old(client)
      ensures old(client) == null && companion.reactContext.Some? ==>
                client != null && fresh(client) && client.dappUrl == DefaultDappUrl
                && client.context == ApplicationContext(companion.reactContext.value)
      ensures old(client) != null || companion.reactContext.Some? ==> client != null && client.Current() == after
    {
      var e := GetEthereum();
      if e.Err? {
        return Err(e.failure);
      }
      var ethereum := e.value;
      ethereum.Observe(after);
      r := ConnectorConnectOutcome(answer, ethereum.selectedAddress, ethereum.chainId);
    }

    /** `signMessage(message)`: the message goes to the SDK's `connectSign`
        whatever the account state, and the SDK, which connects if need be,
        leaves the client showing `after`; `signed` is the message handed
        over. */
    method SignMessage(message: string, answer: Result, after: LiveState) returns (r: Outcome<string>, signed: Option<string>)
      requires ErrorPresent(answer)
      modifies this, client
      ensures old(client) == null && companion.reactContext.None? ==> r == Err(IllegalState(ContextMissing)) && signed.None?
      ensures old(client) != null || companion.reactContext.Some? ==>
                r == ConnectorSignOutcome(answer) && signed == Some(message)
      ensures old(client) == null && companion.reactContext.None? ==> client == null
      ensures old(client) != null ==> client == old(client)
      ensures old(client) == null && companion.reactContext.Some? ==>
                client != null && fresh(client) && client.dappUrl == DefaultDappUrl
                && client.context == ApplicationContext(companion.reactContext.value)
      ensures old(client) != null || companion.reactContext.Some? ==> client != null && client.Current() == after
    {
      var e := GetEthereum();
      if e.Err? {
        return Err(e.failure), None;
      }
      e.value.Observe(after);
      signed := Some(message);
      r := ConnectorSignOutcome(answer);
    }
  }
}
