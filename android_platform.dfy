/** The slice of the Android platform the bridge touches: contexts, the intent
    filters an app declares, and the package manager's answers to
    `queryIntentActivities`, which the model receives as data. */
module AndroidPlatform {
  import opened Common

  /** An Android context: the package it belongs to, and whether it is the
      application-wide context or a shorter-lived one (an activity, a React
      context). */
  datatype Context = Context(packageName: string, isApplication: bool)

  /** `Context.applicationContext`. */
  function ApplicationContext(c: Context): (a: Context)
    ensures a.isApplication && a.packageName == c.packageName
    ensures c.isApplication ==> a == c
  {
    Context(c.packageName, true)
  }

  const ActionView: string := "android.intent.action.VIEW"
  const CategoryDefault: string := "android.intent.category.DEFAULT"
  const CategoryBrowsable: string := "android.intent.category.BROWSABLE"

  /** The host the MetaMask SDK uses to return to the app: `<scheme>://mmsdk`. */
  const MmsdkHost: string := "mmsdk"

  /** An intent filter, read through `hasAction`, `hasCategory`,
      `getDataScheme(i)` and `getDataAuthority(i).host` (None where the
      platform hands back null). */
  datatype IntentFilter = IntentFilter(
    actions: seq<string>,
    categories: seq<string>,
    schemes: seq<Option<string>>,
    authorityHosts: seq<Option<string>>)

  /** One entry of a `queryIntentActivities` answer: the package of its
      activity (`activityInfo?.packageName`) and its filter. */
  datatype ResolveInfo = ResolveInfo(activityPackage: Option<string>, filter: Option<IntentFilter>)

  /** An answer of the package manager, or the exception it raised. */
  datatype Query = Listed(infos: seq<ResolveInfo>) | Threw

  /** The package manager as the bridge sees it: the activities answering a
      browsable VIEW intent, and, for each scheme, the activities answering
      `<scheme>://mmsdk`. */
  datatype PackageManager = PackageManager(viewActivities: Query, resolveMmsdkUri: string -> Query)
}
