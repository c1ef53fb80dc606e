/** `com.nitrometamask.MetamaskContextHolder`, the older generation's context
    store: the same single slot with a shorter failure message. */
module LegacyContextHolder {
  import opened Common
  import opened AndroidPlatform

  const NotInitialized: string := "Context not initialized"

  class ContextHolder {
    var context: Option<Context>

    constructor()
      ensures context == None
    {
      context := None;
    }

    /** Stores `ctx.applicationContext`, replacing any earlier one. */
    method Initialize(ctx: Context)
      modifies this
      ensures context == Some(ApplicationContext(ctx))
    {
      context := Some(ApplicationContext(ctx));
    }

    /** Exactly the stored value, or IllegalStateException("Context not initialized"). */
    method Get() returns (r: Outcome<Context>)
      ensures r.Ok? <==> context.Some?
      ensures r.Ok? ==> r.value == context.value
      ensures r.Err? ==> r.failure == IllegalState(NotInitialized)
    {
      match context
      case Some(c) => r := Ok(c);
      case None => r := Err(IllegalState(NotInitialized));
    }
  }
}
