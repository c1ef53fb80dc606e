/** The MetaMask iOS SDK as the iOS bridges see it: the outcome of `connect`,
    the untyped value a request answers with, and the extraction of a
    signature from it that both bridges share. */
module IosSdk {
  import opened Common

  /** `connect()`'s `Result`: success, or the SDK's error (as its description). */
  datatype ConnectAnswer = Success | Failure(error: string)

  /** A dictionary entry of a response: a String, or any other value. */
  datatype Entry = Text(s: string) | NotText

  /** A request's answer (Swift `Any`): a String, a `[String: Any]`
      dictionary, or anything else. */
  datatype Response = RString(s: string) | RDict(entries: map<string, Entry>) | ROther

  /** `try await sdk.request(...)`: the response, or the error it threw. */
  datatype RequestAnswer = Answered(response: Response) | Threw(error: string)

  const InvalidSignature: string := "Invalid signature response format"
  const NotConnected: string := "No connected account. Call connect() first."

  /** `dict[key] as? String`. */
  function TextAt(entries: map<string, Entry>, key: string): Option<string> {
    if key in entries && entries[key].Text? then Some(entries[key].s) else None
  }

  /** The signature in a response: the String itself, else the dictionary's
      "signature" String, else its "result" String; anything else fails with
      "Invalid signature response format". */
  function ExtractSignature(r: Response): (o: Outcome<string>)
    ensures r.RString? ==> o == Ok(r.s)
    ensures r.RDict? && TextAt(r.entries, "signature").Some? ==> o == Ok(TextAt(r.entries, "signature").value)
    ensures r.RDict? && TextAt(r.entries, "signature").None? && TextAt(r.entries, "result").Some?
            ==> o == Ok(TextAt(r.entries, "result").value)
    ensures o.Err? <==> r.ROther? || (r.RDict? && TextAt(r.entries, "signature").None? && TextAt(r.entries, "result").None?)
    ensures o.Err? ==> o == Err(NSError(InvalidSignature))
  {
    match r
    case RString(s) => Ok(s)
    case RDict(entries) =>
      var sig := TextAt(entries, "signature");
      var res := if sig.Some? then sig else TextAt(entries, "result");
      if res.Some? then Ok(res.value) else Err(NSError(InvalidSignature))
    case ROther => Err(NSError(InvalidSignature))
  }

  /** A "signature" String wins over a "result" String in the same dictionary,
      and a non-String "signature" does not hide a "result" String. */
  lemma SignatureKeyWins(sig: string, res: string, other: map<string, Entry>)
    ensures ExtractSignature(RDict(other["signature" := Text(sig)]["result" := Text(res)])) == Ok(sig)
    ensures ExtractSignature(RDict(other["signature" := NotText]["result" := Text(res)])) == Ok(res)
  {
    var m1 := other["signature" := Text(sig)]["result" := Text(res)];
    assert TextAt(m1, "signature") == Some(sig);
    var m2 := other["signature" := NotText]["result" := Text(res)];
    assert TextAt(m2, "signature") == None && TextAt(m2, "result") == Some(res);
  }
}
