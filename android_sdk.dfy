/** The MetaMask Android SDK as the bridge sees it. Its internals are not part
    of this model: a callback's `Result` reaches the bridge as a value, and the
    client's live account and chain id are fields that the SDK keeps up to
    date. */
module AndroidSdk {
  import opened Common
  import opened AndroidPlatform

  /** A value carried by `Result.Success.Item` (kotlin `Any?`): a String,
      null, or some other object together with its `toString()`. */
  datatype Value = Str(s: string) | Null | Other(text: string)

  /** The SDK's error object: its `message` and its `toString()`. */
  datatype SdkError = SdkError(message: Option<string>, text: string)

  /** `io.metamask.androidsdk.Result`: the three success shapes and the error. */
  datatype Result =
    | Item(value: Value)
    | ItemMap(entries: map<string, Value>)
    | Items(values: seq<string>)
    | Error(error: Option<SdkError>)

  /** `Value as? String`. */
  function AsString(v: Value): Option<string> {
    if v.Str? then Some(v.s) else None
  }

  /** `ethereumState.value`: the SDK's observable state snapshot. */
  datatype EthereumState = EthereumState(selectedAddress: string, chainId: string)

  /** The client's live fields at one moment: the selected address, the chain
      id, and the `ethereumState` snapshot. */
  datatype LiveState = LiveState(selectedAddress: Option<string>, chainId: Option<string>, state: Option<EthereumState>)

  const DappName: string := "Nitro MetaMask Connector"

  /** An `Ethereum` client, built from a context and the dapp metadata URL.
      The fields the SDK updates are what the bridge reads back after a call. */
  class Ethereum {
    const context: Context
    const dappUrl: string
    var selectedAddress: Option<string>
    var chainId: Option<string>
    var state: Option<EthereumState>

    constructor(context: Context, dappUrl: string)
      ensures this.context == context && this.dappUrl == dappUrl
      ensures selectedAddress == None && chainId == None && state == None
    {
      this.context := context;
      this.dappUrl := dappUrl;
      selectedAddress := None;
      chainId := None;
      state := None;
    }

    /** The live state the bridge reads. */
    function Current(): LiveState
      reads this
    {
      LiveState(selectedAddress, chainId, state)
    }

    /** The SDK's own update of its live state while a call is in flight (the
        wallet's answer reaches these fields inside the SDK); what it stores is
        an input of the model. */
    method Observe(live: LiveState)
      modifies this
      ensures Current() == live
    {
      selectedAddress := live.selectedAddress;
      chainId := live.chainId;
      state := live.state;
    }

    /** `updateAccount`: the SDK takes the given account as selected. */
    method UpdateAccount(account: string)
      modifies this
      ensures selectedAddress == Some(account)
      ensures chainId == old(chainId) && state == old(state)
    {
      selectedAddress := Some(account);
    }

    /** `updateChainId`: the SDK takes the given chain id as current. */
    method UpdateChainId(id: string)
      modifies this
      ensures chainId == Some(id)
      ensures selectedAddress == old(selectedAddress) && state == old(state)
    {
      chainId := Some(id);
    }
  }
}
