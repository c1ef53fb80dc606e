/** What the Android session bridge (`com.margelo.nitro.nitrometamask.HybridNitroMetamask`)
    computes from the SDK's answers, as functions: the outcome of `connect`,
    the message `connectSign` asks the wallet to sign, the address and chain id
    it reads back after signing, and the values `getAddress` and `getChainId`
    report. The class in `NitroMetamask` performs these steps in order and
    returns what these functions give. */
module NitroMetamaskLogic {
  import opened Common
  import opened ChainId
  import opened AndroidSdk
  import opened ResultNormalizer

  datatype ConnectResult = ConnectResult(address: string, chainId: int)

  datatype ConnectSignResult = ConnectSignResult(signature: string, address: string, chainId: int)

  const NoAddress: string := "MetaMask SDK returned no address after connection"
  const NoChainId: string := "MetaMask SDK returned no chainId after connection"
  const NotConnected: string :=
    "No connected account. Please call connect() first to establish a connection with MetaMask."
  const AddressUndetermined: string :=
    "Failed to retrieve address after connectSign. "
    + "The signature was received but the address could not be determined."
  const ChainIdUndetermined: string :=
    "Failed to retrieve chainId after connectSign. "
    + "The signature was received but the chainId could not be determined."

  function InvalidChainId(text: string): string {
    "Invalid chainId format: " + text
  }

  /** `connect`: after the SDK's answer, the bridge reads the client's selected
      address and chain id; both must be present and the chain id must parse. */
  function ConnectOutcome(r: Result, address: Option<string>, chainId: Option<string>): (o: Outcome<ConnectResult>)
    ensures o.Ok? <==> r.Item? && address.Some? && chainId.Some? && ParseChainId(chainId.value).Some?
    ensures o.Ok? ==> o.value == ConnectResult(address.value, ParseChainId(chainId.value).value)
    ensures o.Ok? ==> InLong(o.value.chainId)
    ensures !r.Item? ==> o == Err(Normalize(r, Connect).failure)
    ensures r.Item? && address.None? ==> o == Err(IllegalState(NoAddress))
    ensures r.Item? && address.Some? && chainId.None? ==> o == Err(IllegalState(NoChainId))
    ensures r.Item? && address.Some? && chainId.Some? && ParseChainId(chainId.value).None?
            ==> o == Err(IllegalState(InvalidChainId(chainId.value)))
  {
    match Normalize(r, Connect)
    case Err(f) => Err(f)
    case Ok(_) =>
      if address.None? then Err(IllegalState(NoAddress))
      else if chainId.None? then Err(IllegalState(NoChainId))
      else match ParseChainId(chainId.value)
        case None => Err(IllegalState(InvalidChainId(chainId.value)))
        case Some(n) => Ok(ConnectResult(address.value, n))
  }

  /** A wallet that reports its chain as a canonical hexadecimal quantity gets
      that chain back from `connect`, whatever the single-value payload; a
      quantity beyond the Long range is reported as an invalid format. */
  lemma ConnectReportsHexChainId(v: Value, address: string, n: nat)
    ensures var text := "0x" + ToDigits(n, 16);
            ConnectOutcome(Item(v), Some(address), Some(text))
            == if n <= MaxLong then Ok(ConnectResult(address, n)) else Err(IllegalState(InvalidChainId(text)))
  {
    HexAndDecimalAgree(n);
  }

  /** The request `signMessage` sends: `personal_sign` over the connected
      address and the message, in that order. */
  function PersonalSignRequest(address: string, message: string): RpcRequest {
    RpcRequest(PersonalSign, [address, message])
  }

  // ---------------------------------------------------------------------
  // connectSign

  /** A JSON value of the message envelope. */
  datatype Json = JString(s: string) | JNumber(n: int)

  /** The value stored under `key` in an ordered JSON object. */
  function Lookup(obj: seq<(string, Json)>, key: string): Option<Json> {
    if |obj| == 0 then None
    else if obj[0].0 == key then Some(obj[0].1)
    else Lookup(obj[1..], key)
  }

  function Keys(obj: seq<(string, Json)>): set<string> {
    set i | 0 <= i < |obj| :: obj[i].0
  }

  /** The object `connectSign` asks the wallet to sign: the nonce and the
      expiry, and neither the address nor the chain id. */
  function Envelope(nonce: string, exp: int): (e: seq<(string, Json)>)
    requires InLong(exp)
    ensures Keys(e) == {"nonce", "exp"}
    ensures Lookup(e, "nonce") == Some(JString(nonce))
    ensures Lookup(e, "exp") == Some(JNumber(exp))
  {
    var e := [("nonce", JString(nonce)), ("exp", JNumber(exp))];
    assert e[0].0 == "nonce" && e[1].0 == "exp";
    assert Keys(e) == {"nonce", "exp"};
    e
  }

  /** `value as? String ?: value?.toString() ?: ""`. */
  function ItemText(v: Value): string {
    match v
    case Str(s) => s
    case Other(t) => t
    case Null => ""
  }

  predicate Bracketed(s: string) {
    StartsWith(s, "[") && EndsWith(s, "]")
  }

  /** The address read from the answer to `eth_accounts`. A single value that
      looks like a JSON array gives its first element, or itself when it does
      not parse (`readArray` is the JSON parser: the elements as text, or None
      when it throws); any other single value is the address itself; a list
      gives its first element; any other answer gives none. */
  function AddressFrom(r: Result, readArray: string -> Option<seq<string>>): (a: Option<string>)
    ensures r.Items? ==> a == (if |r.values| > 0 then Some(r.values[0]) else None)
    ensures r.Item? && !Bracketed(ItemText(r.value)) ==> a == Some(ItemText(r.value))
    ensures r.Item? && Bracketed(ItemText(r.value)) && readArray(ItemText(r.value)).None? ==> a == Some(ItemText(r.value))
    ensures a.Some? ==> r.Item? || r.Items?
  {
    match r
    case Item(v) =>
      var text := ItemText(v);
      if Bracketed(text) then
        match readArray(text)
        case Some(xs) => if |xs| > 0 then Some(xs[0]) else None
        case None => Some(text)
      else Some(text)
    case Items(xs) => if |xs| > 0 then Some(xs[0]) else None
    case _ => None
  }

  /** Whether the SDK answers `eth_accounts` with a JSON text or with a list,
      the same accounts give the same address. */
  lemma {:induction false} JsonTextAndListAgree(text: string, xs: seq<string>, readArray: string -> Option<seq<string>>)
    requires Bracketed(text) && readArray(text) == Some(xs)
    ensures AddressFrom(Item(Str(text)), readArray) == AddressFrom(Items(xs), readArray)
  {
    assert ItemText(Str(text)) == text;
  }

  /** The chain id text read from the answer to `eth_chainId`: only a single
      String value counts. */
  function ChainIdText(r: Result): (t: Option<string>)
    ensures t.Some? <==> r.Item? && r.value.Str?
    ensures t.Some? ==> t.value == r.value.s
  {
    if r.Item? && r.value.Str? then Some(r.value.s) else None
  }

  /** The chain id parsed from that text, a parse failure reading as none. */
  function ParsedChainId(t: Option<string>): (n: Option<int>)
    ensures n.Some? ==> t.Some? && ParseChainId(t.value) == n
    ensures t.Some? ==> n == ParseChainId(t.value)
  {
    match t
    case None => None
    case Some(s) => ParseChainId(s)
  }

  /** `connectSign`: the signature from the first answer, then the address and
      the chain id read back from the next two. */
  function ConnectSignOutcome(sign: Result, accounts: Result, chain: Result, readArray: string -> Option<seq<string>>): (o: Outcome<ConnectSignResult>)
    ensures o.Ok? <==> SignatureOf(sign, ConnectSign).Ok?
                       && !IsNullOrEmpty(AddressFrom(accounts, readArray))
                       && ParsedChainId(ChainIdText(chain)).Some?
    ensures o.Ok? ==> o.value == ConnectSignResult(SignatureOf(sign, ConnectSign).value,
                                                   AddressFrom(accounts, readArray).value,
                                                   ParsedChainId(ChainIdText(chain)).value)
    ensures SignatureOf(sign, ConnectSign).Err? ==> o == Err(SignatureOf(sign, ConnectSign).failure)
    ensures SignatureOf(sign, ConnectSign).Ok? && IsNullOrEmpty(AddressFrom(accounts, readArray))
            ==> o == Err(IllegalState(AddressUndetermined))
    ensures (SignatureOf(sign, ConnectSign).Ok? && !IsNullOrEmpty(AddressFrom(accounts, readArray))
             && ParsedChainId(ChainIdText(chain)).None?) ==> o == Err(IllegalState(ChainIdUndetermined))
  {
    match SignatureOf(sign, ConnectSign)
    case Err(f) => Err(f)
    case Ok(signature) =>
      var address := AddressFrom(accounts, readArray);
      var chainId := ParsedChainId(ChainIdText(chain));
      if IsNullOrEmpty(address) then Err(IllegalState(AddressUndetermined))
      else if chainId.None? then Err(IllegalState(ChainIdUndetermined))
      else Ok(ConnectSignResult(signature, address.value, chainId.value))
  }

  // ---------------------------------------------------------------------
  // getAddress and getChainId

  /** `getAddress`: the state snapshot's address when it is non-empty, else the
      client's selected address; an empty address reads as null. */
  function AddressOf(snapshot: Option<EthereumState>, selected: Option<string>): (a: Option<string>)
    ensures a.Some? ==> a.value != ""
    ensures snapshot.Some? && snapshot.value.selectedAddress != "" ==> a == Some(snapshot.value.selectedAddress)
    ensures (snapshot.None? || snapshot.value.selectedAddress == "")
            ==> a == (if IsNullOrEmpty(selected) then None else selected)
  {
    var text := if snapshot.Some? && snapshot.value.selectedAddress != ""
                then Some(snapshot.value.selectedAddress) else selected;
    if IsNullOrEmpty(text) then None else text
  }

  /** The chain id text `getChainId` reads, with the same precedence. */
  function ChainIdSource(snapshot: Option<EthereumState>, chainId: Option<string>): Option<string> {
    if snapshot.Some? && snapshot.value.chainId != "" then Some(snapshot.value.chainId) else chainId
  }

  /** `getChainId`: that text parsed, an absent, empty or malformed chain id
      reading as null. */
  function ChainIdOf(snapshot: Option<EthereumState>, chainId: Option<string>): (n: Option<int>)
    ensures n.Some? ==> InLong(n.value)
    ensures n.Some? <==> !IsNullOrEmpty(ChainIdSource(snapshot, chainId))
                         && ParseChainId(ChainIdSource(snapshot, chainId).value).Some?
    ensures n.Some? ==> n == ParseChainId(ChainIdSource(snapshot, chainId).value)
  {
    var text := ChainIdSource(snapshot, chainId);
    if IsNullOrEmpty(text) then None else ParseChainId(text.value)
  }

  /** Without a state snapshot, `getChainId` reports the chain `connect`
      reported, and `getAddress` the address, when it is not empty. */
  lemma GettersAgreeWithConnect(v: Value, address: Option<string>, chainId: Option<string>)
    requires ConnectOutcome(Item(v), address, chainId).Ok?
    ensures ChainIdOf(None, chainId) == Some(ConnectOutcome(Item(v), address, chainId).value.chainId)
    ensures address.value != "" ==> AddressOf(None, address) == Some(ConnectOutcome(Item(v), address, chainId).value.address)
  {
    assert chainId.value != "" by {
      MalformedChainIdsRefused();
    }
  }

  /** The client's live state after `connectSign` has its signature: a
      non-empty address goes to `updateAccount` and a non-empty chain id text
      to `updateChainId`; everything else is as the SDK left it. */
  function Recorded(live: LiveState, address: Option<string>, chainIdText: Option<string>): (r: LiveState)
    ensures r.state == live.state
    ensures IsNullOrEmpty(address) && IsNullOrEmpty(chainIdText) ==> r == live
    ensures !IsNullOrEmpty(address) ==> r.selectedAddress == address
    ensures !IsNullOrEmpty(chainIdText) ==> r.chainId == chainIdText
  {
    var afterAccount := if IsNullOrEmpty(address) then live else live.(selectedAddress := address);
    if IsNullOrEmpty(chainIdText) then afterAccount else afterAccount.(chainId := chainIdText)
  }

  /** What the bridge records after a successful `connectSign` is what it
      returns: the client's selected address is the returned address, and its
      chain id is the text the returned chain id was parsed from. */
  lemma RecordedShowsResult(before: LiveState, sign: Result, accounts: Result, chain: Result,
                            readArray: string -> Option<seq<string>>)
    requires ConnectSignOutcome(sign, accounts, chain, readArray).Ok?
    ensures var res := ConnectSignOutcome(sign, accounts, chain, readArray).value;
            var live := Recorded(before, AddressFrom(accounts, readArray), ChainIdText(chain));
            && live.selectedAddress == Some(res.address)
            && live.chainId == ChainIdText(chain)
            && ParseChainId(live.chainId.value) == Some(res.chainId)
  {
    assert ChainIdText(chain).value != "" by {
      MalformedChainIdsRefused();
    }
  }

  /** After a successful `connectSign` on a client whose live state has no
      state snapshot, `getAddress` and `getChainId` read from the state the
      bridge recorded report the address and the chain id `connectSign`
      returned, whatever the client held before. */
  lemma GettersAgreeWithConnectSign(before: LiveState, sign: Result, accounts: Result, chain: Result,
                                    readArray: string -> Option<seq<string>>)
    requires before.state.None?
    requires ConnectSignOutcome(sign, accounts, chain, readArray).Ok?
    ensures var res := ConnectSignOutcome(sign, accounts, chain, readArray).value;
            var live := Recorded(before, AddressFrom(accounts, readArray), ChainIdText(chain));
            AddressOf(live.state, live.selectedAddress) == Some(res.address)
            && ChainIdOf(live.state, live.chainId) == Some(res.chainId)
  {
    var t := ChainIdText(chain);
    assert t.value != "" by {
      MalformedChainIdsRefused();
    }
  }
}
