/** The result normaliser of the two `HybridNitroMetamask` Android bridges: it
    reduces the SDK's four result shapes to a value or to the exception the
    caller receives. Only the single-value shape succeeds for `connect`,
    `signMessage` and `connectSign`. */
module ResultNormalizer {
  import opened Common
  import opened AndroidSdk

  datatype Operation = Connect | SignMessage | ConnectSign {
    /** The operation's name as it appears in the "unexpected shape" messages. */
    function Name(): string {
      match this
      case Connect => "connect"
      case SignMessage => "signMessage"
      case ConnectSign => "connectSign"
    }

    /** The message used when the SDK reports an error without an error object. */
    function Fallback(): string {
      match this
      case Connect => "MetaMask connection failed"
      case SignMessage => "MetaMask signing failed"
      case ConnectSign => "MetaMask connectSign failed"
    }
  }

  /** `error?.message ?: error?.toString() ?: fallback`. */
  function ErrorText(error: Option<SdkError>, fallback: string): string {
    match error
    case None => fallback
    case Some(e) => e.message.GetOr(e.text)
  }

  /** The `when (result)` of each operation: an `Item` gives its value; a map or
      a list is an unexpected shape (IllegalStateException naming the shape and
      the operation); an error becomes an Exception carrying the SDK's own
      message when there is one. */
  function Normalize(r: Result, op: Operation): (n: Outcome<Value>)
    ensures n.Ok? <==> r.Item?
    ensures n.Ok? ==> n.value == r.value
    ensures r.ItemMap? ==> n == Err(IllegalState("Unexpected ItemMap result from MetaMask " + op.Name()))
    ensures r.Items? ==> n == Err(IllegalState("Unexpected Items result from MetaMask " + op.Name()))
    ensures r.Error? && r.error.Some? && r.error.value.message.Some? ==> n == Err(Thrown(r.error.value.message.value))
    ensures r.Error? && r.error.Some? && r.error.value.message.None? ==> n == Err(Thrown(r.error.value.text))
    ensures r.Error? && r.error.None? ==> n == Err(Thrown(op.Fallback()))
  {
    match r
    case Item(v) => Ok(v)
    case ItemMap(_) => Err(IllegalState("Unexpected ItemMap result from MetaMask " + op.Name()))
    case Items(_) => Err(IllegalState("Unexpected Items result from MetaMask " + op.Name()))
    case Error(e) => Err(Thrown(ErrorText(e, op.Fallback())))
  }

  const InvalidSignature: string := "Invalid signature response format"

  /** `result.value as? String ?: throw Exception("Invalid signature response format")`
      applied after the normaliser: the signature is the Item's String. */
  function SignatureOf(r: Result, op: Operation): (n: Outcome<string>)
    ensures n.Ok? <==> r.Item? && r.value.Str?
    ensures n.Ok? ==> n.value == r.value.s
    ensures r.Item? && !r.value.Str? ==> n == Err(Thrown(InvalidSignature))
    ensures !r.Item? ==> n == Err(Normalize(r, op).failure)
  {
    match Normalize(r, op)
    case Err(f) => Err(f)
    case Ok(v) => if v.Str? then Ok(v.s) else Err(Thrown(InvalidSignature))
  }

  /** An error the SDK explains is passed to the caller word for word, whatever
      the operation; the fallback, which names the operation, is used only when
      there is no error object. */
  lemma SdkMessageReachesCaller(m: string, text: string, op: Operation, other: Operation)
    ensures Normalize(Error(Some(SdkError(Some(m), text))), op)
         == Normalize(Error(Some(SdkError(Some(m), text))), other)
    ensures op != other ==> Normalize(Error(None), op) != Normalize(Error(None), other)
  {
  }
}
