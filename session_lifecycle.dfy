/** The configuration and lifetime of the SDK client held by the Android
    session bridge (`com.margelo.nitro.nitrometamask.HybridNitroMetamask`), as
    a value. `configure` records the dapp URL and an optional deep-link scheme
    and drops the client when either changes; the client getter rebuilds the
    client when there is none or when it was built for another URL. The
    bridge's class keeps its fields equal to these functions of the old
    fields; the lemmas below say what that means for a caller. */
module SessionLifecycle {
  import opened Common
  import opened AndroidPlatform
  import opened AndroidSdk
  import opened DeepLink

  /** The dapp URL used when none was configured. */
  const DefaultDappUrl: string := "https://novastera.com"

  /** The bridge's five fields. */
  datatype Session = Session(
    dappUrl: Option<string>,
    configuredScheme: Option<string>,
    instance: Option<Ethereum>,
    lastUsedUrl: Option<string>,
    cachedScheme: Option<string>)

  /** The URL a client is built with: the configured one, else the default. */
  function EffectiveUrl(s: Session): string {
    s.dappUrl.GetOr(DefaultDappUrl)
  }

  /** The getter builds a new client when there is none or when the one there
      was built for a URL other than the effective one. */
  predicate NeedsRebuild(s: Session) {
    s.instance.None? || s.lastUsedUrl != Some(EffectiveUrl(s))
  }

  /** The client held, if any, carries the URL recorded for it. */
  predicate BuiltFor(s: Session) {
    s.instance.Some? ==> s.lastUsedUrl == Some(s.instance.value.dappUrl)
  }

  /** The scheme `configure` stores: an empty scheme counts as none. */
  function SchemeToUse(scheme: Option<string>): (k: Option<string>)
    ensures k.Some? ==> k.value != ""
    ensures k.None? <==> IsNullOrEmpty(scheme)
    ensures k.Some? ==> k == scheme
  {
    if scheme.Some? && scheme.value != "" then scheme else None
  }

  /** `configure(dappUrl, deepLinkScheme)`. */
  function Configured(s: Session, dappUrl: Option<string>, scheme: Option<string>): (r: Session)
    ensures r.dappUrl == Some(dappUrl.GetOr(DefaultDappUrl))
    ensures r.configuredScheme == SchemeToUse(scheme)
    ensures r == s || (r.instance.None? && r.lastUsedUrl.None?)
    ensures r.cachedScheme == s.cachedScheme || r.cachedScheme.None?
  {
    var urlToUse := dappUrl.GetOr(DefaultDappUrl);
    var schemeToUse := SchemeToUse(scheme);
    var urlChanged := s.dappUrl != Some(urlToUse);
    var schemeChanged := s.configuredScheme != schemeToUse;
    var s1 := s.(dappUrl := Some(urlToUse));
    var s2 := if schemeChanged then s1.(configuredScheme := schemeToUse, cachedScheme := None) else s1;
    if urlChanged || schemeChanged then s2.(instance := None, lastUsedUrl := None) else s2
  }

  /** The getter's rebuild: the new client and the URL it was built with. */
  function Rebuilt(s: Session, e: Ethereum): (r: Session)
    ensures !NeedsRebuild(r)
    ensures r.instance == Some(e)
  {
    s.(instance := Some(e), lastUsedUrl := Some(EffectiveUrl(s)))
  }

  /** `cachedDeepLinkScheme = scheme` after a successful detection. */
  function Detected(s: Session, scheme: string): (r: Session)
    ensures r.cachedScheme == Some(scheme)
    ensures r.instance == s.instance && EffectiveUrl(r) == EffectiveUrl(s)
  {
    s.(cachedScheme := Some(scheme))
  }

  /** What the client getter leaves: the same session when the client can be
      reused, else the session with the new client `e`. */
  function Obtained(s: Session, e: Ethereum): (r: Session)
    ensures !NeedsRebuild(r)
    ensures r.dappUrl == s.dappUrl && r.configuredScheme == s.configuredScheme && r.cachedScheme == s.cachedScheme
  {
    if NeedsRebuild(s) then Rebuilt(s, e) else s
  }

  /** The scheme `getDeepLinkScheme` answers for the app whose package is
      `own`: the configured one, else the one detected before, else the result
      of a detection (none when the detection finds nothing or fails). */
  function SchemeFor(s: Session, pm: PackageManager, own: string): Option<string> {
    if s.configuredScheme.Some? then s.configuredScheme
    else if s.cachedScheme.Some? then s.cachedScheme
    else match DetectScheme(pm, own)
      case Found(x) => Some(x)
      case _ => None
  }

  /** The session after `getDeepLinkScheme`: a detection that finds a scheme
      records it; nothing else changes. */
  function AfterSchemeLookup(s: Session, pm: PackageManager, own: string): (r: Session)
    ensures r.instance == s.instance && r.dappUrl == s.dappUrl && r.lastUsedUrl == s.lastUsedUrl
    ensures r.configuredScheme == s.configuredScheme
  {
    if s.configuredScheme.None? && s.cachedScheme.None? && DetectScheme(pm, own).Found?
    then Detected(s, DetectScheme(pm, own).scheme)
    else s
  }

  /** The URI that brings the app to the foreground. */
  function DeepLinkUri(scheme: string): string {
    scheme + "://" + MmsdkHost
  }

  /** An activity start the bridge requests: a VIEW intent for `uri`, limited
      to the app's own package. */
  datatype Launch = Launch(uri: string, package: string)

  /** `bringAppToForeground`: a launch of `<scheme>://mmsdk` when a scheme is
      known, nothing otherwise. */
  function ForegroundLaunch(scheme: Option<string>, own: string): (l: Option<Launch>)
    ensures l.Some? <==> scheme.Some?
    ensures l.Some? ==> l.value == Launch(scheme.value + "://mmsdk", own)
    ensures l.Some? ==> StartsWith(l.value.uri, scheme.value) && EndsWith(l.value.uri, "://mmsdk")
  {
    match scheme
    case None => None
    case Some(x) =>
      assert (x + "://" + MmsdkHost)[|x|..] == "://mmsdk";
      assert (x + "://" + MmsdkHost)[..|x|] == x;
      Some(Launch(DeepLinkUri(x), own))
  }

  /** The session after an operation that, when `ok`, brings the app to the
      foreground: the scheme lookup runs exactly when `ok` and the app context
      `context` is available. */
  function ForegroundStepped(s: Session, ok: bool, pm: PackageManager, context: Option<Context>): (r: Session)
    ensures r.instance == s.instance && r.dappUrl == s.dappUrl && r.lastUsedUrl == s.lastUsedUrl
    ensures !ok || context.None? ==> r == s
    ensures NeedsRebuild(r) == NeedsRebuild(s)
  {
    if ok && context.Some? then AfterSchemeLookup(s, pm, context.value.packageName) else s
  }

  /** The launch such an operation requests: `ForegroundLaunch` of the scheme
      looked up, when `ok` and the app context is available. */
  function ForegroundLaunchIf(s: Session, ok: bool, pm: PackageManager, context: Option<Context>): (l: Option<Launch>)
    ensures l.Some? ==> ok && context.Some?
    ensures ok && context.Some? ==>
              l == ForegroundLaunch(SchemeFor(s, pm, context.value.packageName), context.value.packageName)
  {
    if ok && context.Some? then ForegroundLaunch(SchemeFor(s, pm, context.value.packageName), context.value.packageName)
    else None
  }

  /** The client getter leaves the scheme lookup as it was. */
  lemma ObtainedKeepsLookup(s: Session, e: Ethereum, ok: bool, pm: PackageManager, context: Option<Context>)
    ensures ForegroundLaunchIf(Obtained(s, e), ok, pm, context) == ForegroundLaunchIf(s, ok, pm, context)
  {
  }

  // ---------------------------------------------------------------------
  // Properties of the lifecycle.

  /** Calling `configure` twice with the same arguments is calling it once. */
  lemma ConfigureIdempotent(s: Session, dappUrl: Option<string>, scheme: Option<string>)
    ensures Configured(Configured(s, dappUrl, scheme), dappUrl, scheme) == Configured(s, dappUrl, scheme)
  {
  }

  /** `configure` with what is already configured changes nothing: the client,
      its URL and the detected scheme are kept. */
  lemma ConfigureUnchangedKeepsClient(s: Session, dappUrl: Option<string>, scheme: Option<string>)
    requires s.dappUrl == Some(dappUrl.GetOr(DefaultDappUrl))
    requires s.configuredScheme == SchemeToUse(scheme)
    ensures Configured(s, dappUrl, scheme) == s
  {
  }

  /** `configure` with a different URL or scheme drops the client, so that the
      next use builds a new one. */
  lemma ConfigureChangeDropsClient(s: Session, dappUrl: Option<string>, scheme: Option<string>)
    requires s.dappUrl != Some(dappUrl.GetOr(DefaultDappUrl)) || s.configuredScheme != SchemeToUse(scheme)
    ensures Configured(s, dappUrl, scheme).instance.None?
    ensures NeedsRebuild(Configured(s, dappUrl, scheme))
  {
  }

  /** A new scheme discards the scheme detected before; the same scheme keeps it. */
  lemma SchemeChangeClearsDetection(s: Session, dappUrl: Option<string>, scheme: Option<string>)
    ensures s.configuredScheme != SchemeToUse(scheme) ==> Configured(s, dappUrl, scheme).cachedScheme.None?
    ensures s.configuredScheme == SchemeToUse(scheme) ==> Configured(s, dappUrl, scheme).cachedScheme == s.cachedScheme
  {
  }

  /** Configure, build, configure again with the same arguments: the client
      built in between is the one still in use. */
  lemma ReconfigureKeepsBuiltClient(s: Session, dappUrl: Option<string>, scheme: Option<string>, e: Ethereum)
    ensures var built := Rebuilt(Configured(s, dappUrl, scheme), e);
            Configured(built, dappUrl, scheme) == built && !NeedsRebuild(built)
  {
    var c := Configured(s, dappUrl, scheme);
    ConfigureUnchangedKeepsClient(Rebuilt(c, e), dappUrl, scheme);
  }

  /** The first `configure(null, null)` stores the default URL in place of
      "none", which counts as a change: a client already built for the default
      URL is dropped although the URL it would be rebuilt with is the same. */
  lemma FirstDefaultConfigureDropsClient(s: Session)
    requires s.dappUrl.None? && s.configuredScheme.None?
    ensures EffectiveUrl(Configured(s, None, None)) == EffectiveUrl(s)
    ensures Configured(s, None, None).instance.None?
  {
  }

  /** Each step keeps the client's recorded URL equal to the URL inside it. */
  lemma StepsKeepBuiltFor(s: Session, dappUrl: Option<string>, scheme: Option<string>, e: Ethereum, detected: string)
    requires BuiltFor(s)
    ensures BuiltFor(Configured(s, dappUrl, scheme))
    ensures e.dappUrl == EffectiveUrl(s) ==> BuiltFor(Rebuilt(s, e))
    ensures BuiltFor(Detected(s, detected))
  {
  }

  /** With the invariant, a client the getter does not rebuild is a client
      built for the URL currently configured. */
  lemma ClientInUseCarriesConfiguredUrl(s: Session)
    requires BuiltFor(s) && !NeedsRebuild(s)
    ensures s.instance.value.dappUrl == EffectiveUrl(s)
  {
  }

  /** A configured scheme is used as it is: the platform is not consulted. */
  lemma ConfiguredSchemeWins(s: Session, pm: PackageManager, own: string)
    requires s.configuredScheme.Some?
    ensures SchemeFor(s, pm, own) == s.configuredScheme
    ensures AfterSchemeLookup(s, pm, own) == s
  {
  }

  /** Detection runs once: after a lookup that answered a scheme, the next
      lookup answers the same scheme whatever the platform now says. */
  lemma DetectionRunsOnce(s: Session, pm: PackageManager, later: PackageManager, own: string)
    requires SchemeFor(s, pm, own).Some?
    ensures SchemeFor(AfterSchemeLookup(s, pm, own), later, own) == SchemeFor(s, pm, own)
  {
  }

  /** A lookup that answers nothing records nothing, so the next one detects
      again. */
  lemma FailedLookupIsRetried(s: Session, pm: PackageManager, own: string)
    requires SchemeFor(s, pm, own).None?
    ensures AfterSchemeLookup(s, pm, own) == s
  {
  }

  /** A detected scheme is the first one, in the order the platform lists
      the activities and the filter lists its schemes, that the app declares
      for host "mmsdk" in a browsable VIEW filter of its own package and whose
      `<scheme>://mmsdk` resolves back to that package. */
  lemma DetectedSchemeIsAccepted(s: Session, pm: PackageManager, own: string, x: string)
    requires s.configuredScheme.None? && s.cachedScheme.None?
    requires SchemeFor(s, pm, own) == Some(x)
    ensures pm.viewActivities.Listed?
    ensures exists i, j :: 0 <= i < |pm.viewActivities.infos|
                           && Accepts(pm.viewActivities.infos[i], j, own, pm.resolveMmsdkUri)
                           && pm.viewActivities.infos[i].filter.value.schemes[j] == Some(x)
                           && (forall i', j' :: 0 <= i' < i ==> !Accepts(pm.viewActivities.infos[i'], j', own, pm.resolveMmsdkUri))
                           && (forall j' :: 0 <= j' < j ==> !Accepts(pm.viewActivities.infos[i], j', own, pm.resolveMmsdkUri))
  {
    FoundIsAccepted(pm.viewActivities.infos, own, pm.resolveMmsdkUri, x);
  }

  /** A lookup with nothing configured or recorded answers nothing exactly when
      no scheme is acceptable or the platform failed on the way. */
  lemma NoSchemeMeansNoneAccepted(s: Session, pm: PackageManager, own: string)
    requires s.configuredScheme.None? && s.cachedScheme.None?
    requires pm.viewActivities.Listed? && DetectScheme(pm, own) != Failed
    requires SchemeFor(s, pm, own).None?
    ensures forall i, j :: 0 <= i < |pm.viewActivities.infos|
                           ==> !Accepts(pm.viewActivities.infos[i], j, own, pm.resolveMmsdkUri)
  {
    NotFoundMeansNoneAccepted(pm.viewActivities.infos, own, pm.resolveMmsdkUri);
  }
}
