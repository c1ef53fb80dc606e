/** `ios/HybridNitroMetamask.swift`: the iOS session bridge over the shared
    `MetaMaskSDK` instance. It keeps no state of its own: each call reads the
    SDK's account and chain id (here parameters) and the SDK's answers. */
module IosNitroMetamask {
  import opened Common
  import opened ChainId
  import opened IosSdk

  datatype IosConnectResult = IosConnectResult(address: string, chainId: int)

  const NoAddress: string := "MetaMask SDK returned no address after connection"
  const InvalidChainIdFormat: string := "Invalid chainId format"

  /** `connect()`: on success a non-empty account and a non-empty chain id
      that reads as hexadecimal once every "0x" is removed; a failure passes
      the SDK's error on unchanged. */
  function IosConnectOutcome(answer: ConnectAnswer, account: Option<string>, chainId: Option<string>): (o: Outcome<IosConnectResult>)
    ensures o.Ok? <==> answer.Success? && !IsNullOrEmpty(account) && !IsNullOrEmpty(chainId)
                       && IosParseChainId(chainId.value).Some?
    ensures o.Ok? ==> o.value == IosConnectResult(account.value, IosParseChainId(chainId.value).value)
    ensures answer.Failure? ==> o == Err(Rethrown(answer.error))
    ensures answer.Success? && IsNullOrEmpty(account) ==> o == Err(NSError(NoAddress))
    ensures answer.Success? && !IsNullOrEmpty(account) && !o.Ok? ==> o == Err(NSError(InvalidChainIdFormat))
  {
    match answer
    case Failure(e) => Err(Rethrown(e))
    case Success =>
      if IsNullOrEmpty(account) then Err(NSError(NoAddress))
      else if IsNullOrEmpty(chainId) then Err(NSError(InvalidChainIdFormat))
      else match IosParseChainId(chainId.value)
        case None => Err(NSError(InvalidChainIdFormat))
        case Some(n) => Ok(IosConnectResult(account.value, n))
  }

  /** The request `signMessage` sends: none without a non-empty account,
      otherwise `personal_sign` over the account and the message. */
  function IosSignRequest(account: Option<string>, message: string): (q: Option<RpcRequest>)
    ensures q.Some? <==> !IsNullOrEmpty(account)
    ensures q.Some? ==> q.value.methodName == PersonalSign && q.value.params == [account.value, message]
  {
    if IsNullOrEmpty(account) then None else Some(RpcRequest(PersonalSign, [account.value, message]))
  }

  /** `signMessage(message)`: the guard, then the SDK's answer to the request. */
  function IosSignOutcome(account: Option<string>, answer: RequestAnswer): (o: Outcome<string>)
    ensures IsNullOrEmpty(account) ==> o == Err(NSError(NotConnected))
    ensures !IsNullOrEmpty(account) && answer.Threw? ==> o == Err(Rethrown(answer.error))
    ensures !IsNullOrEmpty(account) && answer.Answered? ==> o == ExtractSignature(answer.response)
  {
    if IsNullOrEmpty(account) then Err(NSError(NotConnected))
    else match answer
      case Threw(e) => Err(Rethrown(e))
      case Answered(r) => ExtractSignature(r)
  }

  /** A wallet reporting its chain as a canonical hexadecimal quantity gets
      that chain back, unless it does not fit in a 64-bit `Int`. */
  lemma IosConnectReportsHexChainId(account: string, n: nat)
    requires account != ""
    ensures IosConnectOutcome(Success, Some(account), Some("0x" + ToDigits(n, 16)))
            == if n <= MaxLong then Ok(IosConnectResult(account, n)) else Err(NSError(InvalidChainIdFormat))
  {
    IosReadsHexQuantity(n);
    HexAndDecimalAgree(n);
  }

  /** A decimal chain id is read as hexadecimal: "10" is chain 16 on iOS. */
  lemma IosMisreadsDecimalChainId(account: string)
    requires account != ""
    ensures IosConnectOutcome(Success, Some(account), Some("10")) == Ok(IosConnectResult(account, 16))
  {
    IosReadsDecimalAsHex();
  }
}
