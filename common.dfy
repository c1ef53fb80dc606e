/** Shared vocabulary of the session bridge: optional values, the outcome of a
    bridged call (a value or the exception the caller receives), JSON-RPC
    requests, and the few string predicates the bridge relies on. */
module Common {

  datatype Option<+T> = None | Some(value: T) {
    /** Kotlin's elvis operator `x ?: default`. */
    function GetOr(default: T): T {
      match this
      case Some(v) => v
      case None => default
    }
  }

  /** The exception a bridged call ends with, by the kind the host observes. */
  datatype Failure =
    | IllegalState(message: string)   // kotlin IllegalStateException
    | Thrown(message: string)         // a plain kotlin Exception(message)
    | NSError(message: string)        // NSError carrying NSLocalizedDescriptionKey
    | Rethrown(error: string)         // an SDK error passed through unchanged

  /** What a promise returned across the bridge resolves or rejects with. */
  datatype Outcome<+T> = Ok(value: T) | Err(failure: Failure)

  /** A JSON-RPC request handed to the wallet SDK. */
  datatype RpcRequest = RpcRequest(methodName: string, params: seq<string>)

  const PersonalSign: string := "personal_sign"

  predicate StartsWith(s: string, prefix: string) {
    |prefix| <= |s| && s[..|prefix|] == prefix
  }

  predicate EndsWith(s: string, suffix: string) {
    |suffix| <= |s| && s[|s| - |suffix|..] == suffix
  }

  /** `word` occurs in `s` starting at index `i`. */
  predicate OccursAt(s: string, word: string, i: int) {
    0 <= i && i + |word| <= |s| && s[i..i + |word|] == word
  }

  /** JavaScript's `includes` / Kotlin's `contains`. */
  predicate Contains(s: string, word: string) {
    exists i :: 0 <= i <= |s| && OccursAt(s, word, i)
  }

  predicate IsNullOrEmpty(s: Option<string>) {
    s.None? || s.value == ""
  }

  /** An occurrence inside `b` is still an occurrence once text is put around `b`. */
  lemma ContainsInside(a: string, b: string, c: string, word: string)
    requires Contains(b, word)
    ensures Contains(a + b + c, word)
  {
    var i :| 0 <= i <= |b| && OccursAt(b, word, i);
    assert (a + b + c)[|a| + i..|a| + i + |word|] == b[i..i + |word|];
    assert OccursAt(a + b + c, word, |a| + i);
  }

  lemma ContainsWhole(a: string, word: string, c: string)
    ensures Contains(a + word + c, word)
  {
    assert (a + word + c)[|a|..|a| + |word|] == word;
    assert OccursAt(a + word + c, word, |a|);
  }

  /** A text holding `b` holds everything `b` holds. */
  lemma ContainsTransitive(s: string, b: string, word: string)
    requires Contains(s, b) && Contains(b, word)
    ensures Contains(s, word)
  {
    var i :| 0 <= i <= |s| && OccursAt(s, b, i);
    assert s == s[..i] + b + s[i + |b|..];
    ContainsInside(s[..i], b, s[i + |b|..], word);
  }
}
