/** `com.nitrometamask.HybridNitroMetamask`, the older generation of the Android
    bridge: one client, built on first use with the fixed dapp URL and never
    replaced, `connect` reporting the chain id as a 32-bit Int widened to a
    number, and `signMessage` without the foreground return. */
module LegacyNitroMetamask {
  import opened Common
  import opened ChainId
  import opened AndroidSdk
  import opened ResultNormalizer
  import opened SessionLifecycle
  import opened NitroMetamaskLogic
  import opened LegacyContextHolder

  /** `ConnectResult` of this generation: the chain id is a number. */
  datatype LegacyConnectResult = LegacyConnectResult(address: string, chainId: int)

  /** `connect`: the newer bridge's reading, with the parsed chain id truncated
      by `Long.toInt()`; `toDouble()` of an Int is exact, so the number is the
      truncated Int itself. */
  function LegacyConnectOutcome(r: Result, address: Option<string>, chainId: Option<string>): (o: Outcome<LegacyConnectResult>)
    ensures o.Ok? <==> ConnectOutcome(r, address, chainId).Ok?
    ensures o.Ok? ==> o.value.address == ConnectOutcome(r, address, chainId).value.address
                      && o.value.chainId == ToInt(ConnectOutcome(r, address, chainId).value.chainId)
    ensures o.Ok? ==> InInt(o.value.chainId)
    ensures o.Err? ==> o.failure == ConnectOutcome(r, address, chainId).failure
  {
    match Normalize(r, Connect)
    case Err(f) => Err(f)
    case Ok(_) =>
      if address.None? then Err(IllegalState(NoAddress))
      else if chainId.None? then Err(IllegalState(NoChainId))
      else match ParseChainId(chainId.value)
        case None => Err(IllegalState(InvalidChainId(chainId.value)))
        case Some(n) => Ok(LegacyConnectResult(address.value, ToInt(n)))
  }

  /** The two generations agree on every chain id that fits in an Int. */
  lemma GenerationsAgreeOnIntChains(r: Result, address: Option<string>, chainId: Option<string>)
    requires ConnectOutcome(r, address, chainId).Ok?
    requires InInt(ConnectOutcome(r, address, chainId).value.chainId)
    ensures LegacyConnectOutcome(r, address, chainId).value.chainId == ConnectOutcome(r, address, chainId).value.chainId
  {
  }

  /** A chain id past the Int range is reported wrapped: `0x100000001` comes
      back as 1 from this generation and as 4294967297 from the newer one. */
  lemma LargeChainIdWraps(v: Value, address: string)
    ensures ConnectOutcome(Item(v), Some(address), Some("0x100000001")) == Ok(ConnectResult(address, 0x1_0000_0001))
    ensures LegacyConnectOutcome(Item(v), Some(address), Some("0x100000001")) == Ok(LegacyConnectResult(address, 1))
  {
    var s := "0x100000001";
    assert StartsWith(s, "0x");
    assert s[2..] == "100000001";
    assert Magnitude("100000001", 16) == 0x1_0000_0001 by {
      assert "100000001"[..8] == "10000000";
      assert "10000000"[..7] == "1000000";
      assert "1000000"[..6] == "100000";
      assert "100000"[..5] == "10000";
      assert "10000"[..4] == "1000";
      assert "1000"[..3] == "100";
      assert "100"[..2] == "10";
      assert "10"[..1] == "1";
      assert "1"[..0] == "";
    }
    assert AllDigits("100000001", 16);
    assert ParseLong("100000001", 16) == Some(0x1_0000_0001);
    assert ParseChainId(s) == Some(0x1_0000_0001);
  }

  class LegacyHybridNitroMetamask {
    /** `com.nitrometamask.MetamaskContextHolder`. */
    const holder: ContextHolder
    /** The `by lazy` client: null until the first successful access. */
    var client: Ethereum?

    constructor(holder: ContextHolder)
      ensures this.holder == holder && client == null
    {
      this.holder := holder;
      client := null;
    }

    /** The lazy `ethereum`: built once from the stored context and the fixed
        URL; an initialiser that throws leaves it unset for the next access. */
    method GetEthereum() returns (r: Outcome<Ethereum>)
      modifies this
      ensures old(client) != null ==> r == Ok(old(client)) && client == old(client)
      ensures old(client) == null && holder.context.None? ==> r == Err(IllegalState(LegacyContextHolder.NotInitialized)) && client == null
      ensures old(client) == null && holder.context.Some? ==>
                r.Ok? && fresh(r.value) && client == r.value
                && r.value.context == holder.context.value && r.value.dappUrl == DefaultDappUrl
      ensures r.Ok? ==> r.value.dappUrl == (if old(client) == null then DefaultDappUrl else old(client).dappUrl)
    {
      if client == null {
        var context := holder.Get();
        if context.Err? {
          return Err(context.failure);
        }
        client := new Ethereum(context.value, DefaultDappUrl);
      }
      r := Ok(client);
    }

    /** `connect()`: the SDK's answer `answer`, and the client's live state
        `after` once it has answered. */
    method Connect(answer: Result, after: LiveState) returns (r: Outcome<LegacyConnectResult>)
      modifies this, client
      ensures old(client) == null && holder.context.None? ==> r == Err(IllegalState(LegacyContextHolder.NotInitialized))
      ensures old(client) != null || holder.context.Some? ==>
                r == LegacyConnectOutcome(answer, after.selectedAddress, after.chainId)
      ensures old(client) == null && holder.context.None? ==> client == null
      ensures old(client) != null ==> client == old(client)
      ensures old(client) == null && holder.context.Some? ==>
                client != null && fresh(client) && client.context == holder.context.value && client.dappUrl == DefaultDappUrl
      ensures old(client) != null || holder.context.Some? ==> client != null && client.Current() == after
    {
      var e := GetEthereum();
      if e.Err? {
        return Err(e.failure);
      }
      var ethereum := e.value;
      ethereum.Observe(after);
      r := LegacyConnectOutcome(answer, ethereum.selectedAddress, ethereum.chainId);
    }

    /** `signMessage(message)`: the same guard and request as the newer
        bridge, and no foreground return. */
    method SignMessage(message: string, live: LiveState, answer: Result)
      returns (r: Outcome<string>, sent: Option<RpcRequest>)
      modifies this, client
      ensures old(client) == null && holder.context.None?
              ==> r == Err(IllegalState(LegacyContextHolder.NotInitialized)) && sent.None?
      ensures (old(client) != null || holder.context.Some?) && IsNullOrEmpty(live.selectedAddress)
              ==> r == Err(IllegalState(NotConnected)) && sent.None?
      ensures (old(client) != null || holder.context.Some?) && !IsNullOrEmpty(live.selectedAddress)
              ==> sent == Some(PersonalSignRequest(live.selectedAddress.value, message))
                  && r == SignatureOf(answer, Operation.SignMessage)
      ensures old(client) == null && holder.context.None? ==> client == null
      ensures old(client) != null ==> client == old(client)
      ensures old(client) == null && holder.context.Some? ==>
                client != null && fresh(client) && client.context == holder.context.value && client.dappUrl == DefaultDappUrl
      ensures old(client) != null || holder.context.Some? ==> client != null && client.Current() == live
    {
      sent := None;
      var e := GetEthereum();
      if e.Err? {
        return Err(e.failure), sent;
      }
      var ethereum := e.value;
      ethereum.Observe(live);
      var address := ethereum.selectedAddress;
      if IsNullOrEmpty(address) {
        return Err(IllegalState(NotConnected)), sent;
      }
      sent := Some(PersonalSignRequest(address.value, message));
      r := SignatureOf(answer, Operation.SignMessage);
    }
  }
}
