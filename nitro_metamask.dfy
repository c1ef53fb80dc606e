/** `com.margelo.nitro.nitrometamask.HybridNitroMetamask`: the Android session
    bridge. It holds the configuration, the SDK client built from it, and the
    deep-link scheme it detected, and runs each bridged operation against the
    client. The SDK's answers (callback results, and the live state the SDK
    keeps in the client) are parameters of each operation. */
module NitroMetamask {
  import opened Common
  import opened ChainId
  import opened AndroidPlatform
  import opened AndroidSdk
  import opened ResultNormalizer
  import opened DeepLink
  import opened SessionLifecycle
  import opened NitroMetamaskLogic
  import opened MetamaskContextHolder

  /** `connectSign`'s updates of the client once it has a signature: a
      non-empty address through `updateAccount`, then a non-empty chain id
      text through `updateChainId`. */
  method RecordConnection(ethereum: Ethereum, address: Option<string>, chainIdText: Option<string>)
    modifies ethereum
    ensures ethereum.Current() == Recorded(old(ethereum.Current()), address, chainIdText)
  {
    if !IsNullOrEmpty(address) {
      ethereum.UpdateAccount(address.value);
    }
    if !IsNullOrEmpty(chainIdText) {
      ethereum.UpdateChainId(chainIdText.value);
    }
  }

  class HybridNitroMetamask {
    /** `MetamaskContextHolder`, the process-wide store of the app context. */
    const holder: ContextHolder

    var dappUrl: Option<string>
    var configuredDeepLinkScheme: Option<string>
    var ethereumInstance: Ethereum?
    var lastUsedUrl: Option<string>
    var cachedDeepLinkScheme: Option<string>

    /** The fields as a `Session` value. */
    function State(): Session
      reads this
    {
      Session(dappUrl, configuredDeepLinkScheme,
              if ethereumInstance == null then None else Some(ethereumInstance),
              lastUsedUrl, cachedDeepLinkScheme)
    }

    /** A client held is one built for the URL recorded with it. */
    predicate Valid()
      reads this
    {
      BuiltFor(State())
    }

    /** The live state of the client the getter hands out next: the one held
        when it is reused, an empty one when a new client is built. */
    function HandedOutLive(): LiveState
      reads this, ethereumInstance
    {
      if ethereumInstance == null || NeedsRebuild(State()) then LiveState(None, None, None)
      else ethereumInstance.Current()
    }

    /** The getter cannot produce a client: it must build one and the context
        holder is empty. */
    predicate ClientUnavailable()
      reads this, holder
    {
      NeedsRebuild(State()) && holder.appContext.None?
    }

    constructor(holder: ContextHolder)
      ensures this.holder == holder
      ensures State() == Session(None, None, None, None, None)
      ensures Valid()
    {
      this.holder := holder;
      dappUrl := None;
      configuredDeepLinkScheme := None;
      ethereumInstance := null;
      lastUsedUrl := None;
      cachedDeepLinkScheme := None;
    }

    /** `configure(dappUrl, deepLinkScheme)`. */
    method Configure(url: Option<string>, scheme: Option<string>)
      requires Valid()
      modifies this
      ensures State() == Configured(old(State()), url, scheme)
      ensures Valid()
    {
      var urlToUse := url.GetOr(DefaultDappUrl);
      var schemeToUse := if scheme.Some? && scheme.value != "" then scheme else None;
      var changed := false;
      if dappUrl != Some(urlToUse) {
        dappUrl := Some(urlToUse);
        changed := true;
      }
      if configuredDeepLinkScheme != schemeToUse {
        configuredDeepLinkScheme := schemeToUse;
        cachedDeepLinkScheme := None;
        changed := true;
      }
      if changed {
        ethereumInstance := null;
        lastUsedUrl := None;
      }
    }

    /** The `ethereum` getter: the client held, or a new one built from the
        application context and the effective dapp URL when there is none or
        it was built for another URL. */
    method GetEthereum() returns (r: Outcome<Ethereum>)
      requires Valid()
      modifies this
      ensures Valid()
      ensures old(ClientUnavailable()) ==> r == Err(IllegalState(NotInitialized)) && State() == old(State())
      ensures !old(ClientUnavailable()) ==>
                r.Ok? && r.value == ethereumInstance && State() == Obtained(old(State()), r.value)
      ensures !old(NeedsRebuild(State())) ==> r == Ok(old(ethereumInstance))
      ensures old(NeedsRebuild(State())) && r.Ok? ==> fresh(r.value) && r.value.context == holder.appContext.value
      ensures r.Ok? ==> r.value.dappUrl == EffectiveUrl(State())
      ensures r.Ok? ==> r.value.Current() == old(HandedOutLive())
      ensures ethereumInstance == old(ethereumInstance) || fresh(ethereumInstance)
    {
      var currentUrl := dappUrl.GetOr(DefaultDappUrl);
      if ethereumInstance == null || lastUsedUrl != Some(currentUrl) {
        var context := holder.Get();
        if context.Err? {
          return Err(context.failure);
        }
        var e := new Ethereum(context.value, currentUrl);
        ethereumInstance := e;
        lastUsedUrl := Some(currentUrl);
      }
      r := Ok(ethereumInstance);
    }

    /** `getDeepLinkScheme(context)`: the configured scheme, else the one
        detected before, else a walk over the activities answering a browsable
        VIEW intent; the first scheme found is recorded. A platform exception
        ends the walk with nothing. */
    method GetDeepLinkScheme(context: Context, pm: PackageManager) returns (scheme: Option<string>)
      modifies this`cachedDeepLinkScheme
      ensures scheme == SchemeFor(old(State()), pm, context.packageName)
      ensures State() == AfterSchemeLookup(old(State()), pm, context.packageName)
    {
      if configuredDeepLinkScheme.Some? {
        return configuredDeepLinkScheme;
      }
      if cachedDeepLinkScheme.Some? {
        return cachedDeepLinkScheme;
      }
      var own := context.packageName;
      var resolve := pm.resolveMmsdkUri;
      if pm.viewActivities.Threw? {
        return None;
      }
      var resolveList := pm.viewActivities.infos;
      var i := 0;
      while i < |resolveList|
        invariant 0 <= i <= |resolveList|
        invariant ScanActivities(resolveList, own, resolve) == ScanActivities(resolveList[i..], own, resolve)
        invariant cachedDeepLinkScheme == old(cachedDeepLinkScheme)
      {
        var info := resolveList[i];
        assert resolveList[i..][0] == info && resolveList[i..][1..] == resolveList[i + 1..];
        if info.activityPackage == Some(own) && info.filter.Some? {
          var filter := info.filter.value;
          if ActionView in filter.actions && CategoryDefault in filter.categories && CategoryBrowsable in filter.categories {
            var j := 0;
            while j < |filter.schemes|
              invariant 0 <= j <= |filter.schemes|
              invariant ScanActivity(info, own, resolve)
                        == if HasMmsdkHost(filter) then ScanSchemes(filter.schemes[j..], own, resolve) else NotFound
              invariant cachedDeepLinkScheme == old(cachedDeepLinkScheme)
            {
              assert filter.schemes[j..][0] == filter.schemes[j] && filter.schemes[j..][1..] == filter.schemes[j + 1..];
              if filter.schemes[j].Some? {
                var candidate := filter.schemes[j].value;
                var hasMmsdkHost := false;
                var k := 0;
                while k < |filter.authorityHosts|
                  invariant 0 <= k <= |filter.authorityHosts|
                  invariant !hasMmsdkHost
                  invariant forall k' :: 0 <= k' < k ==> filter.authorityHosts[k'] != Some(MmsdkHost)
                {
                  var authority := filter.authorityHosts[k];
                  if authority.Some? && authority.value == MmsdkHost {
                    hasMmsdkHost := true;
                    break;
                  }
                  k := k + 1;
                }
                assert hasMmsdkHost <==> HasMmsdkHost(filter);
                if hasMmsdkHost {
                  var tests := resolve(candidate);
                  if tests.Threw? {
                    return None;
                  }
                  var testResolveList := tests.infos;
                  var t := 0;
                  while t < |testResolveList|
                    invariant 0 <= t <= |testResolveList|
                    invariant forall t' :: 0 <= t' < t ==> testResolveList[t'].activityPackage != Some(own)
                  {
                    if testResolveList[t].activityPackage == Some(own) {
                      cachedDeepLinkScheme := Some(candidate);
                      return Some(candidate);
                    }
                    t := t + 1;
                  }
                }
              }
              j := j + 1;
            }
          }
        }
        i := i + 1;
      }
      return None;
    }

    /** `bringAppToForeground()`: with the app context, ask for a VIEW of
        `<scheme>://mmsdk` in the app's own package when a scheme is known.
        Every failure is swallowed. */
    method BringAppToForeground(pm: PackageManager) returns (launched: Option<Launch>)
      modifies this`cachedDeepLinkScheme
      ensures holder.appContext.None? ==> launched.None? && State() == old(State())
      ensures holder.appContext.Some? ==>
                var own := holder.appContext.value.packageName;
                launched == ForegroundLaunch(SchemeFor(old(State()), pm, own), own)
                && State() == AfterSchemeLookup(old(State()), pm, own)
    {
      var context := holder.Get();
      if context.Err? {
        return None;
      }
      var scheme := GetDeepLinkScheme(context.value, pm);
      launched := ForegroundLaunch(scheme, context.value.packageName);
    }

    /** `connect()`: the SDK connects (its answer `answer`; the client's live
        state afterwards `after`), then the bridge reads the address and the
        chain id from the client. */
    method Connect(answer: Result, after: LiveState) returns (r: Outcome<ConnectResult>)
      requires Valid()
      modifies this, ethereumInstance
      ensures Valid()
      ensures old(ClientUnavailable()) ==> r == Err(IllegalState(NotInitialized)) && State() == old(State())
      ensures !old(ClientUnavailable()) ==>
                && r == ConnectOutcome(answer, after.selectedAddress, after.chainId)
                && ethereumInstance != null
                && State() == Obtained(old(State()), ethereumInstance)
                && ethereumInstance.Current() == after
    {
      var client := GetEthereum();
      if client.Err? {
        return Err(client.failure);
      }
      var ethereum := client.value;
      ethereum.Observe(after);
      r := ConnectOutcome(answer, ethereum.selectedAddress, ethereum.chainId);
    }

    /** `signMessage(message)`: refuses without a connected account; otherwise
        sends `personal_sign` over the account and the message and, once a
        signature comes back, brings the app to the foreground. `live` is the
        client's state when the bridge reads the account; `sent` is the
        request handed to the SDK. */
    method SignMessage(message: string, live: LiveState, answer: Result, pm: PackageManager)
      returns (r: Outcome<string>, sent: Option<RpcRequest>, launched: Option<Launch>)
      requires Valid()
      modifies this, ethereumInstance
      ensures Valid()
      ensures old(ClientUnavailable()) ==> r == Err(IllegalState(NotInitialized)) && sent.None? && launched.None?
      ensures !old(ClientUnavailable()) && IsNullOrEmpty(live.selectedAddress)
              ==> r == Err(IllegalState(NotConnected)) && sent.None? && launched.None?
      ensures !old(ClientUnavailable()) && !IsNullOrEmpty(live.selectedAddress)
              ==> && sent == Some(PersonalSignRequest(live.selectedAddress.value, message))
                  && r == SignatureOf(answer, Operation.SignMessage)
      ensures sent.Some? ==> sent.value.methodName == PersonalSign && sent.value.params[0] != ""
      ensures launched.Some? ==> r.Ok?
      ensures r.Ok? && holder.appContext.Some? ==>
                var own := holder.appContext.value.packageName;
                launched == ForegroundLaunch(SchemeFor(old(State()), pm, own), own)
      ensures old(ClientUnavailable()) ==> State() == old(State())
      ensures !old(ClientUnavailable()) ==>
                && ethereumInstance != null
                && ethereumInstance.Current() == live
                && State() == (if r.Ok? && holder.appContext.Some?
                               then AfterSchemeLookup(Obtained(old(State()), ethereumInstance), pm, holder.appContext.value.packageName)
                               else Obtained(old(State()), ethereumInstance))
    {
      sent := None;
      launched := None;
      var client := GetEthereum();
      if client.Err? {
        return Err(client.failure), sent, launched;
      }
      var ethereum := client.value;
      ethereum.Observe(live);
      var address := ethereum.selectedAddress;
      if IsNullOrEmpty(address) {
        return Err(IllegalState(NotConnected)), sent, launched;
      }
      var request := PersonalSignRequest(address.value, message);
      sent := Some(request);
      r := SignatureOf(answer, Operation.SignMessage);
      if r.Ok? {
        launched := BringAppToForeground(pm);
      }
    }

    /** `connectSign(nonce, exp)`: the SDK connects and signs the envelope of
        the nonce and the expiry; with a signature, the bridge asks for the
        accounts and the chain id, records a non-empty address and chain id in
        the client, brings the app to the foreground, and only then checks that
        both were determined. `live` is the client's live state as the SDK
        leaves it once its calls have answered (connecting may have set any of
        it). */
    method ConnectSign(nonce: string, exp: int, sign: Result, accounts: Result, chain: Result,
                       readArray: string -> Option<seq<string>>, live: LiveState, pm: PackageManager)
      returns (r: Outcome<ConnectSignResult>, signed: Option<seq<(string, Json)>>, launched: Option<Launch>)
      requires InLong(exp)
      requires Valid()
      modifies this, ethereumInstance
      ensures Valid()
      ensures old(ClientUnavailable()) ==>
                r == Err(IllegalState(NotInitialized)) && signed.None? && launched.None? && State() == old(State())
      ensures !old(ClientUnavailable()) ==>
                var ok := SignatureOf(sign, Operation.ConnectSign).Ok?;
                && ethereumInstance != null
                && signed == Some(Envelope(nonce, exp))
                && r == ConnectSignOutcome(sign, accounts, chain, readArray)
                && launched == ForegroundLaunchIf(old(State()), ok, pm, holder.appContext)
                && State() == ForegroundStepped(Obtained(old(State()), ethereumInstance), ok, pm, holder.appContext)
                && ethereumInstance.Current() == (if ok then Recorded(live, AddressFrom(accounts, readArray), ChainIdText(chain))
                                                  else live)
      ensures ethereumInstance == old(ethereumInstance) || fresh(ethereumInstance)
    {
      signed := None;
      launched := None;
      var client := GetEthereum();
      if client.Err? {
        return Err(client.failure), signed, launched;
      }
      var ethereum := client.value;
      ghost var obtained := State();
      assert obtained == Obtained(old(State()), ethereum);
      ObtainedKeepsLookup(old(State()), ethereum, SignatureOf(sign, Operation.ConnectSign).Ok?, pm, holder.appContext);
      var message;
      r, message, launched := ConnectSignWith(ethereum, nonce, exp, sign, accounts, chain, readArray, live, pm);
      signed := Some(message);
    }

    /** `connectSign` once the client `ethereum` is at hand: the envelope goes
        to the SDK, which leaves the client showing `live`; with a signature,
        the address and chain id are recorded in the client and the app is
        brought to the foreground before they are checked. */
    method ConnectSignWith(ethereum: Ethereum, nonce: string, exp: int, sign: Result, accounts: Result, chain: Result,
                           readArray: string -> Option<seq<string>>, live: LiveState, pm: PackageManager)
      returns (r: Outcome<ConnectSignResult>, signed: seq<(string, Json)>, launched: Option<Launch>)
      requires InLong(exp)
      requires Valid() && ethereumInstance == ethereum
      modifies this`cachedDeepLinkScheme, ethereum
      ensures Valid() && ethereumInstance == ethereum
      ensures signed == Envelope(nonce, exp)
      ensures r == ConnectSignOutcome(sign, accounts, chain, readArray)
      ensures var ok := SignatureOf(sign, Operation.ConnectSign).Ok?;
              && launched == ForegroundLaunchIf(old(State()), ok, pm, holder.appContext)
              && State() == ForegroundStepped(old(State()), ok, pm, holder.appContext)
              && ethereum.Current() == (if ok then Recorded(live, AddressFrom(accounts, readArray), ChainIdText(chain))
                                        else live)
      ensures r.Ok? ==> ethereum.selectedAddress == Some(r.value.address) && ethereum.chainId == ChainIdText(chain)
    {
      launched := None;
      signed := Envelope(nonce, exp);
      ethereum.Observe(live);
      var signature := SignatureOf(sign, Operation.ConnectSign);
      if signature.Err? {
        return Err(signature.failure), signed, launched;
      }
      RecordConnection(ethereum, AddressFrom(accounts, readArray), ChainIdText(chain));
      launched := BringAppToForeground(pm);
      r := ConnectSignOutcome(sign, accounts, chain, readArray);
    }

    /** `getAddress()`: the address the client's live state `live` shows. */
    method GetAddress(live: LiveState) returns (r: Outcome<Option<string>>)
      requires Valid()
      modifies this, ethereumInstance
      ensures Valid()
      ensures old(ClientUnavailable()) ==> r == Err(IllegalState(NotInitialized))
      ensures !old(ClientUnavailable()) ==> r == Ok(AddressOf(live.state, live.selectedAddress))
      ensures old(ClientUnavailable()) ==> State() == old(State())
      ensures !old(ClientUnavailable()) ==>
                && ethereumInstance != null
                && State() == Obtained(old(State()), ethereumInstance)
                && ethereumInstance.Current() == live
      ensures ethereumInstance == old(ethereumInstance) || fresh(ethereumInstance)
    {
      var client := GetEthereum();
      if client.Err? {
        return Err(client.failure);
      }
      var ethereum := client.value;
      ethereum.Observe(live);
      r := Ok(AddressOf(ethereum.state, ethereum.selectedAddress));
    }

    /** `getChainId()`: the chain id the client's live state `live` shows. */
    method GetChainId(live: LiveState) returns (r: Outcome<Option<int>>)
      requires Valid()
      modifies this, ethereumInstance
      ensures Valid()
      ensures old(ClientUnavailable()) ==> r == Err(IllegalState(NotInitialized))
      ensures !old(ClientUnavailable()) ==> r == Ok(ChainIdOf(live.state, live.chainId))
      ensures old(ClientUnavailable()) ==> State() == old(State())
      ensures !old(ClientUnavailable()) ==>
                && ethereumInstance != null
                && State() == Obtained(old(State()), ethereumInstance)
                && ethereumInstance.Current() == live
      ensures ethereumInstance == old(ethereumInstance) || fresh(ethereumInstance)
    {
      var client := GetEthereum();
      if client.Err? {
        return Err(client.failure);
      }
      var ethereum := client.value;
      ethereum.Observe(live);
      r := Ok(ChainIdOf(ethereum.state, ethereum.chainId));
    }
  }

  /** A `connectSign` that succeeds while the SDK sets no state snapshot
      (`live`, what the SDK leaves in the client, has none), then `getAddress`
      and `getChainId` while the client still shows what the bridge recorded:
      the getters report the address and the chain id that `connectSign`
      returned. */
  method ConnectSignThenGetters(bridge: HybridNitroMetamask, nonce: string, exp: int, sign: Result, accounts: Result,
                                chain: Result, readArray: string -> Option<seq<string>>, live: LiveState, pm: PackageManager)
    returns (r: Outcome<ConnectSignResult>, address: Outcome<Option<string>>, chainId: Outcome<Option<int>>)
    requires InLong(exp)
    requires bridge.Valid()
    requires live.state.None?
    modifies bridge, bridge.ethereumInstance
    ensures r.Ok? ==> address == Ok(Some(r.value.address)) && chainId == Ok(Some(r.value.chainId))
  {
    r := ConnectSignForGetters(bridge, nonce, exp, sign, accounts, chain, readArray, live, pm);
    var recorded := if bridge.ethereumInstance == null then LiveState(None, None, None) else bridge.ethereumInstance.Current();
    if r.Ok? {
      GettersAgreeWithConnectSign(live, sign, accounts, chain, readArray);
    }
    address, chainId := ReadBack(bridge, recorded);
  }

  /** `connectSign` as the getters see it: after a successful call the client
      is reused, and its live state records the address and the chain id read
      back during the call. */
  method ConnectSignForGetters(bridge: HybridNitroMetamask, nonce: string, exp: int, sign: Result, accounts: Result,
                               chain: Result, readArray: string -> Option<seq<string>>, live: LiveState, pm: PackageManager)
    returns (r: Outcome<ConnectSignResult>)
    requires InLong(exp)
    requires bridge.Valid()
    modifies bridge, bridge.ethereumInstance
    ensures bridge.Valid()
    ensures r == Err(IllegalState(NotInitialized)) || r == ConnectSignOutcome(sign, accounts, chain, readArray)
    ensures r.Ok? ==> && !bridge.ClientUnavailable() && bridge.ethereumInstance != null
                      && bridge.ethereumInstance.Current()
                         == Recorded(live, AddressFrom(accounts, readArray), ChainIdText(chain))
    ensures bridge.ethereumInstance == old(bridge.ethereumInstance) || fresh(bridge.ethereumInstance)
  {
    var signed, launched;
    r, signed, launched := bridge.ConnectSign(nonce, exp, sign, accounts, chain, readArray, live, pm);
  }

  /** `getAddress` then `getChainId`: once the first has produced a client,
      the second reuses it, so both answer from the same live state. */
  method ReadBack(bridge: HybridNitroMetamask, live: LiveState)
    returns (address: Outcome<Option<string>>, chainId: Outcome<Option<int>>)
    requires bridge.Valid()
    modifies bridge, bridge.ethereumInstance
    ensures old(bridge.ClientUnavailable()) ==> address == Err(IllegalState(NotInitialized))
    ensures !old(bridge.ClientUnavailable()) ==>
              && address == Ok(AddressOf(live.state, live.selectedAddress))
              && chainId == Ok(ChainIdOf(live.state, live.chainId))
  {
    address := bridge.GetAddress(live);
    chainId := bridge.GetChainId(live);
  }
}
