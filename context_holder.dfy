/** `com.margelo.nitro.nitrometamask.MetamaskContextHolder`: a single-slot,
    fail-fast store for the application context, filled when the React Native
    package is loaded and read whenever an SDK client is built. */
module MetamaskContextHolder {
  import opened Common
  import opened AndroidPlatform

  const NotInitialized: string :=
    "MetamaskContextHolder not initialized. "
    + "Make sure NitroMetamaskPackage is properly registered in your React Native app."

  class ContextHolder {
    var appContext: Option<Context>

    /** The singleton starts empty. */
    constructor()
      ensures appContext == None
    {
      appContext := None;
    }

    /** Stores the application context of `context`, replacing whatever the
        slot held; there is no once-only guard. */
    method Initialize(context: Context)
      modifies this
      ensures appContext == Some(ApplicationContext(context))
      ensures appContext.value.isApplication && appContext.value.packageName == context.packageName
    {
      appContext := Some(ApplicationContext(context));
    }

    /** The stored context, or IllegalStateException when `Initialize` never
        ran. Reading changes nothing. */
    method Get() returns (r: Outcome<Context>)
      ensures r.Ok? <==> appContext.Some?
      ensures r.Ok? ==> r.value == appContext.value
      ensures r.Err? ==> r.failure == IllegalState(NotInitialized)
    {
      match appContext
      case Some(c) => r := Ok(c);
      case None => r := Err(IllegalState(NotInitialized));
    }
  }

  /** The life of the slot: fail before initialisation, the application
      context after, and the latest context after re-initialisation. */
  method HolderLifecycle(first: Context, second: Context)
  {
    var holder := new ContextHolder();
    var r := holder.Get();
    assert r == Err(IllegalState(NotInitialized));
    holder.Initialize(first);
    r := holder.Get();
    assert r == Ok(ApplicationContext(first));
    holder.Initialize(second);
    r := holder.Get();
    assert r == Ok(ApplicationContext(second));
    assert !first.isApplication ==> r != Ok(first);
  }
}
