/** `ios/HybridMetamaskConnector.swift`: the simpler iOS connector, written
    against an SDK whose account is an object with an address and a chain id.
    Like the session bridge it keeps no state; its guards check only that an
    account exists. */
module IosMetamaskConnector {
  import opened Common
  import opened IosSdk
  import opened IosNitroMetamask

  /** The SDK's account: its address and the text `"\(account.chainId)"`
      renders. */
  datatype Account = Account(address: string, chainIdText: string)

  datatype IosConnectorResult = IosConnectorResult(address: string, chainId: string)

  const NoAccount: string := "MetaMask SDK returned no account"

  /** `connect()`: on success any account gives its address and chain id text;
      no account fails; a failure passes the SDK's error on. */
  function IosConnectorConnectOutcome(answer: ConnectAnswer, account: Option<Account>): (o: Outcome<IosConnectorResult>)
    ensures o.Ok? <==> answer.Success? && account.Some?
    ensures o.Ok? ==> o.value == IosConnectorResult(account.value.address, account.value.chainIdText)
    ensures answer.Failure? ==> o == Err(Rethrown(answer.error))
    ensures answer.Success? && account.None? ==> o == Err(NSError(NoAccount))
  {
    match answer
    case Failure(e) => Err(Rethrown(e))
    case Success =>
      if account.None? then Err(NSError(NoAccount))
      else Ok(IosConnectorResult(account.value.address, account.value.chainIdText))
  }

  /** The request `signMessage` sends: none without an account, otherwise
      `personal_sign` over the account's address, empty or not, and the message. */
  function IosConnectorSignRequest(account: Option<Account>, message: string): (q: Option<RpcRequest>)
    ensures q.Some? <==> account.Some?
    ensures q.Some? ==> q.value == RpcRequest(PersonalSign, [account.value.address, message])
  {
    if account.None? then None else Some(RpcRequest(PersonalSign, [account.value.address, message]))
  }

  /** `signMessage(message)`: the guard, then the SDK's answer. */
  function IosConnectorSignOutcome(account: Option<Account>, answer: RequestAnswer): (o: Outcome<string>)
    ensures account.None? ==> o == Err(NSError(NotConnected))
    ensures account.Some? && answer.Threw? ==> o == Err(Rethrown(answer.error))
    ensures account.Some? && answer.Answered? ==> o == ExtractSignature(answer.response)
  {
    if account.None? then Err(NSError(NotConnected))
    else match answer
      case Threw(e) => Err(Rethrown(e))
      case Answered(r) => ExtractSignature(r)
  }

  /** With a present account, the two iOS signers send the same request and
      read the same signature; only an empty address separates them. */
  lemma IosSignersAgreeOnNonEmptyAccounts(a: Account, message: string, answer: RequestAnswer)
    requires a.address != ""
    ensures IosConnectorSignRequest(Some(a), message) == IosSignRequest(Some(a.address), message)
    ensures IosConnectorSignOutcome(Some(a), answer) == IosSignOutcome(Some(a.address), answer)
  {
  }

  /** An empty address: the connector signs with it, the session bridge
      refuses before any request. */
  lemma EmptyAddressSplitsIosSigners(chainIdText: string, message: string, answer: RequestAnswer)
    ensures IosConnectorSignRequest(Some(Account("", chainIdText)), message) == Some(RpcRequest(PersonalSign, ["", message]))
    ensures IosSignRequest(Some(""), message).None?
    ensures IosSignOutcome(Some(""), answer) == Err(NSError(NotConnected))
  {
  }
}
