/** Detection of the deep-link scheme that brings the app back to the
    foreground. The Android bridge asks the package manager for the activities
    answering a browsable VIEW intent and walks them in order: an activity of
    the app's own package whose filter has VIEW, DEFAULT and BROWSABLE and an
    authority with host "mmsdk" offers each of its non-null schemes, and a
    scheme is taken when `<scheme>://mmsdk` resolves back to the app's own
    package. The first scheme taken wins; a failing platform query ends the
    search with nothing. This module states that search as functions; the
    loops that run it are `NitroMetamask.HybridNitroMetamask.GetDeepLinkScheme`. */
module DeepLink {
  import opened Common
  import opened AndroidPlatform

  /** How a search ends: a scheme, nothing, or an exception from the platform. */
  datatype Scan = Found(scheme: string) | NotFound | Failed

  predicate HasMmsdkHost(f: IntentFilter) {
    exists k :: 0 <= k < |f.authorityHosts| && f.authorityHosts[k] == Some(MmsdkHost)
  }

  predicate IsBrowsableView(f: IntentFilter) {
    ActionView in f.actions && CategoryDefault in f.categories && CategoryBrowsable in f.categories
  }

  /** An activity of the app's own package with a browsable VIEW filter. */
  predicate IsOwnCandidate(info: ResolveInfo, own: string) {
    info.activityPackage == Some(own) && info.filter.Some? && IsBrowsableView(info.filter.value)
  }

  predicate ListsPackage(infos: seq<ResolveInfo>, own: string) {
    exists t :: 0 <= t < |infos| && infos[t].activityPackage == Some(own)
  }

  /** `<scheme>://mmsdk` resolves, without exception, to an activity of `own`. */
  predicate ComesHome(scheme: string, own: string, resolve: string -> Query) {
    resolve(scheme).Listed? && ListsPackage(resolve(scheme).infos, own)
  }

  /** The j-th scheme of the i-th activity is one the search accepts. */
  predicate Accepts(info: ResolveInfo, j: int, own: string, resolve: string -> Query) {
    && IsOwnCandidate(info, own)
    && HasMmsdkHost(info.filter.value)
    && 0 <= j < |info.filter.value.schemes|
    && info.filter.value.schemes[j].Some?
    && ComesHome(info.filter.value.schemes[j].value, own, resolve)
  }

  /** The walk over one filter's schemes. */
  function ScanSchemes(schemes: seq<Option<string>>, own: string, resolve: string -> Query): Scan
    decreases |schemes|
  {
    if |schemes| == 0 then NotFound
    else if schemes[0].None? then ScanSchemes(schemes[1..], own, resolve)
    else match resolve(schemes[0].value)
      case Threw => Failed
      case Listed(tests) =>
        if ListsPackage(tests, own) then Found(schemes[0].value)
        else ScanSchemes(schemes[1..], own, resolve)
  }

  /** What one activity contributes. */
  function ScanActivity(info: ResolveInfo, own: string, resolve: string -> Query): Scan {
    if IsOwnCandidate(info, own) && HasMmsdkHost(info.filter.value)
    then ScanSchemes(info.filter.value.schemes, own, resolve)
    else NotFound
  }

  /** The walk over the activities, in the order the platform lists them. */
  function ScanActivities(infos: seq<ResolveInfo>, own: string, resolve: string -> Query): Scan
    decreases |infos|
  {
    if |infos| == 0 then NotFound
    else
      var here := ScanActivity(infos[0], own, resolve);
      if here.NotFound? then ScanActivities(infos[1..], own, resolve) else here
  }

  /** The whole detection for the app whose package is `own`. */
  function DetectScheme(pm: PackageManager, own: string): Scan {
    match pm.viewActivities
    case Threw => Failed
    case Listed(infos) => ScanActivities(infos, own, pm.resolveMmsdkUri)
  }

  // ---------------------------------------------------------------------
  // What the search finds, stated without the walk.

  /** A scheme found in one filter is a non-null scheme of it that comes home,
      and no earlier scheme of that filter does. */
  lemma {:induction false} SchemesFound(schemes: seq<Option<string>>, own: string, resolve: string -> Query, s: string)
    requires ScanSchemes(schemes, own, resolve) == Found(s)
    ensures exists j :: 0 <= j < |schemes| && schemes[j] == Some(s) && ComesHome(s, own, resolve)
                        && forall j' :: 0 <= j' < j && schemes[j'].Some? ==> !ComesHome(schemes[j'].value, own, resolve)
    decreases |schemes|
  {
    if schemes[0] == Some(s) && ComesHome(s, own, resolve) {
      assert 0 < |schemes| && schemes[0] == Some(s);
    } else {
      var rest := schemes[1..];
      SchemesFound(rest, own, resolve, s);
      var j :| 0 <= j < |rest| && rest[j] == Some(s) && ComesHome(s, own, resolve)
               && forall j' :: 0 <= j' < j && rest[j'].Some? ==> !ComesHome(rest[j'].value, own, resolve);
      assert schemes[j + 1] == Some(s);
      forall j' | 0 <= j' < j + 1 && schemes[j'].Some?
        ensures !ComesHome(schemes[j'].value, own, resolve)
      {
        if j' > 0 {
          assert schemes[j'] == rest[j' - 1];
        }
      }
    }
  }

  /** A filter's walk that finds nothing has no scheme that comes home. */
  lemma {:induction false} SchemesMissed(schemes: seq<Option<string>>, own: string, resolve: string -> Query)
    requires ScanSchemes(schemes, own, resolve) == NotFound
    ensures forall j :: 0 <= j < |schemes| && schemes[j].Some? ==> !ComesHome(schemes[j].value, own, resolve)
    decreases |schemes|
  {
    if |schemes| > 0 {
      var rest := schemes[1..];
      SchemesMissed(rest, own, resolve);
      forall j | 0 <= j < |schemes| && schemes[j].Some?
        ensures !ComesHome(schemes[j].value, own, resolve)
      {
        if j > 0 {
          assert schemes[j] == rest[j - 1];
        }
      }
    }
  }

  /** A found scheme is the first accepted one: its activity is an own-package
      candidate with an "mmsdk" authority, `<scheme>://mmsdk` comes home, no
      earlier activity has an acceptable scheme, and no earlier scheme of the
      same filter is acceptable. */
  lemma {:induction false} FoundIsAccepted(infos: seq<ResolveInfo>, own: string, resolve: string -> Query, s: string)
    requires ScanActivities(infos, own, resolve) == Found(s)
    ensures exists i, j :: 0 <= i < |infos| && Accepts(infos[i], j, own, resolve)
                           && infos[i].filter.value.schemes[j] == Some(s)
                           && (forall i', j' :: 0 <= i' < i ==> !Accepts(infos[i'], j', own, resolve))
                           && (forall j' :: 0 <= j' < j ==> !Accepts(infos[i], j', own, resolve))
    decreases |infos|
  {
    var here := ScanActivity(infos[0], own, resolve);
    if here.NotFound? {
      var rest := infos[1..];
      FoundIsAccepted(rest, own, resolve, s);
      var i, j :| 0 <= i < |rest| && Accepts(rest[i], j, own, resolve)
                  && rest[i].filter.value.schemes[j] == Some(s)
                  && (forall i', j' :: 0 <= i' < i ==> !Accepts(rest[i'], j', own, resolve))
                  && (forall j' :: 0 <= j' < j ==> !Accepts(rest[i], j', own, resolve));
      assert infos[i + 1] == rest[i];
      if IsOwnCandidate(infos[0], own) && HasMmsdkHost(infos[0].filter.value) {
        SchemesMissed(infos[0].filter.value.schemes, own, resolve);
      }
      forall i', j' | 0 <= i' < i + 1
        ensures !Accepts(infos[i'], j', own, resolve)
      {
        if i' > 0 {
          assert infos[i'] == rest[i' - 1];
        }
      }
    } else {
      var f := infos[0].filter.value;
      SchemesFound(f.schemes, own, resolve, s);
      var j :| 0 <= j < |f.schemes| && f.schemes[j] == Some(s) && ComesHome(s, own, resolve)
               && forall j' :: 0 <= j' < j && f.schemes[j'].Some? ==> !ComesHome(f.schemes[j'].value, own, resolve);
      assert Accepts(infos[0], j, own, resolve);
    }
  }

  /** A walk over the activities that finds nothing saw no acceptable scheme. */
  lemma {:induction false} NotFoundMeansNoneAccepted(infos: seq<ResolveInfo>, own: string, resolve: string -> Query)
    requires ScanActivities(infos, own, resolve) == NotFound
    ensures forall i, j :: 0 <= i < |infos| ==> !Accepts(infos[i], j, own, resolve)
    decreases |infos|
  {
    if |infos| > 0 {
      var here := ScanActivity(infos[0], own, resolve);
      assert here.NotFound?;
      NotFoundMeansNoneAccepted(infos[1..], own, resolve);
      if IsOwnCandidate(infos[0], own) && HasMmsdkHost(infos[0].filter.value) {
        SchemesMissed(infos[0].filter.value.schemes, own, resolve);
      }
      forall i, j | 0 <= i < |infos|
        ensures !Accepts(infos[i], j, own, resolve)
      {
        if i > 0 {
          assert infos[i] == infos[1..][i - 1];
        }
      }
    }
  }

  /** A filter whose every non-null scheme resolves, without exception, to
      no activity of `own` yields nothing: the converse of `SchemesMissed`. */
  lemma {:induction false} SchemesAllMiss(schemes: seq<Option<string>>, own: string, resolve: string -> Query)
    requires forall j :: 0 <= j < |schemes| && schemes[j].Some? ==>
               resolve(schemes[j].value).Listed? && !ComesHome(schemes[j].value, own, resolve)
    ensures ScanSchemes(schemes, own, resolve) == NotFound
    decreases |schemes|
  {
    if |schemes| > 0 {
      var rest := schemes[1..];
      forall j | 0 <= j < |rest| && rest[j].Some?
        ensures resolve(rest[j].value).Listed? && !ComesHome(rest[j].value, own, resolve)
      {
        assert rest[j] == schemes[j + 1];
      }
      SchemesAllMiss(rest, own, resolve);
    }
  }

  /** An own-package candidate whose schemes all resolve elsewhere is skipped:
      the walk goes on to the next activity. */
  lemma MissedCandidateSkipped(info: ResolveInfo, rest: seq<ResolveInfo>, own: string, resolve: string -> Query)
    requires IsOwnCandidate(info, own)
    requires forall j :: 0 <= j < |info.filter.value.schemes| && info.filter.value.schemes[j].Some? ==>
               resolve(info.filter.value.schemes[j].value).Listed?
               && !ComesHome(info.filter.value.schemes[j].value, own, resolve)
    ensures ScanActivities([info] + rest, own, resolve) == ScanActivities(rest, own, resolve)
  {
    SchemesAllMiss(info.filter.value.schemes, own, resolve);
    assert ([info] + rest)[0] == info && ([info] + rest)[1..] == rest;
  }

  /** The search takes the first acceptable scheme: when every activity
      before `info` yields nothing and `info` yields a scheme, that scheme is
      the answer whatever comes after. */
  lemma {:induction false} FirstActivityWins(before: seq<ResolveInfo>, info: ResolveInfo, rest: seq<ResolveInfo>,
                                             own: string, resolve: string -> Query, s: string)
    requires forall i :: 0 <= i < |before| ==> ScanActivity(before[i], own, resolve) == NotFound
    requires ScanActivity(info, own, resolve) == Found(s)
    ensures ScanActivities(before + [info] + rest, own, resolve) == Found(s)
    decreases |before|
  {
    var all := before + [info] + rest;
    if |before| == 0 {
      assert all[0] == info;
    } else {
      assert all[0] == before[0];
      assert all[1..] == before[1..] + [info] + rest;
      FirstActivityWins(before[1..], info, rest, own, resolve, s);
    }
  }

  /** An activity of another package, or one whose filter is not a browsable
      VIEW filter, never contributes a scheme. */
  lemma ForeignActivitiesIgnored(info: ResolveInfo, rest: seq<ResolveInfo>, own: string, resolve: string -> Query)
    requires !IsOwnCandidate(info, own)
    ensures ScanActivities([info] + rest, own, resolve) == ScanActivities(rest, own, resolve)
  {
    assert ([info] + rest)[1..] == rest;
  }
}
