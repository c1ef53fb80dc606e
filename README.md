# nitro-metamask, modelled in Dafny

nitro-metamask is a React Native (Nitro module) bridge to the MetaMask mobile
SDKs. This project models its native core and proves properties about it:

- **The Android bridge** (`HybridNitroMetamask`, current generation). It
  - keeps a configurable dapp URL and deep-link scheme;
  - rebuilds the SDK client when the effective URL changes;
  - detects the app's own `mmsdk` deep-link scheme from its intent filters and
    caches it;
  - implements `connect`, `signMessage` and `connectSign` (a signed
    `{nonce, exp}` envelope plus account and chain lookups);
  - implements the `getAddress` and `getChainId` getters.
  Chain ids are parsed the way Kotlin's `toLong(radix)` does (hex with a
  `0x`/`0X` prefix, else decimal, within the 64-bit range).
- **The legacy Android bridge** (`com.nitrometamask`). It has a lazily built
  client, and it truncates the chain id to 32 bits with `toInt()`.
- **The Android `HybridMetamaskConnector`**. It reports the chain id as the
  SDK's text.
- **Both `MetamaskContextHolder` singletons**.
- **The iOS bridge and connector**. The bridge removes every `0x` and parses
  the rest as hex. Both accept a signature as a bare string or under
  `signature`/`result` in a dictionary.
- **The Expo config plugin `app.plugin.js`**. It patches a Swift or
  Objective-C `AppDelegate` with the SDK import and a deep-link handler.
  Every regular expression it uses is modelled character by character:
  JavaScript's `\s`, the multiline `^`/`$`, the global `match`,
  `lastIndexOf`, `indexOf`, and `replace` with `$1`.

Everything the SDKs decide is a parameter of the model:
- the `Result` of a callback;
- the client's selected address, chain id and state after a call (`LiveState`);
- the package manager's answers;
- the JSON array reader.

State the sources update in place is a Dafny `class` (the bridges, the SDK
client, the context holders, the plugin's `modResults`). The current Android
bridge's five fields read as a `Session` value. Each of its methods states
the new `Session` as a specification function of the old one (`Configured`,
`Obtained`, `AfterSchemeLookup`), and states the client's live values
afterwards. The other classes state their new fields directly:
- the holders, what they store;
- the legacy bridge and the connector, whether their lazy client is now built,
  and with what;
- `modResults`, its contents as a step function of the old contents.

Modules and files:

| module | file | models |
|---|---|---|
| `Common` | `common.dfy` | options, outcomes, failures, string search |
| `ChainId` | `chain_id.dfy` | chain-id parsing on both platforms, 32-bit truncation |
| `AndroidPlatform` | `android_platform.dfy` | contexts, intent filters, package manager |
| `AndroidSdk` | `android_sdk.dfy` | SDK results and the `Ethereum` client |
| `ResultNormalizer` | `result_normalizer.dfy` | shared handling of `Result` shapes |
| `MetamaskContextHolder`, `LegacyContextHolder` | `context_holder.dfy`, `legacy_context_holder.dfy` | the two holders |
| `DeepLink` | `deep_link.dfy` | scheme detection |
| `SessionLifecycle` | `session_lifecycle.dfy` | configure, rebuild, cache |
| `NitroMetamaskLogic` | `nitro_metamask_logic.dfy` | what each operation reports |
| `NitroMetamask` | `nitro_metamask.dfy` | the bridge class |
| `LegacyNitroMetamask` | `legacy_nitro_metamask.dfy` | the legacy bridge |
| `MetamaskConnector` | `metamask_connector.dfy` | the Android connector |
| `IosSdk`, `IosNitroMetamask`, `IosMetamaskConnector` | `ios_sdk.dfy`, `ios_nitro_metamask.dfy`, `ios_metamask_connector.dfy` | the iOS side |
| `PluginText`, `AppPlugin` | `plugin_text.dfy`, `app_plugin.dfy` | the config plugin |

Source paths in the table below are relative to the repository root.

## Model

| member | source | states |
|---|---|---|
| ChainId.ParseChainId | android/src/main/java/com/margelo/nitro/nitrometamask/HybridNitroMetamask.kt:271-276 | a `0x`/`0X` prefix selects hex on the rest, anything else decimal; every value it gives lies in the 64-bit range (its round trips are `HexAndDecimalAgree`) |
| ChainId.IosParseChainId | ios/HybridNitroMetamask.swift:31-41 | every `0x` removed, then hex; every value it gives lies in the 64-bit range (compared with the Android parse by `IosReadsHexQuantity`) |
| ChainId.ParseLong | android/src/main/java/com/margelo/nitro/nitrometamask/HybridNitroMetamask.kt:272-276 | a parsed value lies in the 64-bit range, and the text ends in a digit of the radix |
| ChainId.ToInt | android/src/main/java/com/nitrometamask/HybridNitroMetamask.kt:61-66 | `Long.toInt()` gives a 32-bit value congruent to its input modulo 2^32, and it is the identity on 32-bit values |
| ChainId.RemoveHexMarkers | ios/HybridNitroMetamask.swift:34 | removing every `0x` never lengthens the text, and it leaves a text without `0x` unchanged |
| ChainId.MagnitudeOfDigits | android/src/main/java/com/margelo/nitro/nitrometamask/HybridNitroMetamask.kt:272-276 | the digit value of the rendering of n in any radix is n (reference renderer for the round trips) |
| ChainId.ParseLongRoundTrip | android/src/main/java/com/margelo/nitro/nitrometamask/HybridNitroMetamask.kt:272-276 | `toLong(radix)` reads back every non-negative number written in that radix when it fits in a Long, and refuses it (NumberFormatException) otherwise |
| ChainId.HexAndDecimalAgree | android/src/main/java/com/margelo/nitro/nitrometamask/HybridNitroMetamask.kt:271-276 | `0x`-hex, `0X`-hex and decimal spellings of the same number parse alike: to the number within the Long range, refused beyond it |
| ChainId.DecimalHasNoPrefix | android/src/main/java/com/margelo/nitro/nitrometamask/HybridNitroMetamask.kt:272 | a decimal chain id never takes the hex branch |
| ChainId.MalformedChainIdsRefused | android/src/main/java/com/margelo/nitro/nitrometamask/HybridNitroMetamask.kt:271-279 | empty text, a bare prefix, non-digits and a bare sign are all refused |
| ChainId.SignAfterPrefix | android/src/main/java/com/margelo/nitro/nitrometamask/HybridNitroMetamask.kt:272-276 | `toLong` accepts a sign after the prefix (`0x-1` is -1) and a leading `+` |
| ChainId.IosReadsHexQuantity | ios/HybridNitroMetamask.swift:31-34 | on a `0x`-prefixed hex quantity the iOS parse agrees with the Android one |
| ChainId.NoMarkerInHexDigits | ios/HybridNitroMetamask.swift:34 | hex digits alone never contain the `0x` marker (the removal leaves them intact) |
| ChainId.IosReadsDecimalAsHex | ios/HybridNitroMetamask.swift:34 | `"10"` is 10 on Android and 16 on iOS |
| ChainId.IosRefusesUpperPrefix | ios/HybridNitroMetamask.swift:34 | `"0X1"` is 1 on Android and refused on iOS |
| ChainId.IosRemovesInnerMarker | ios/HybridNitroMetamask.swift:34 | `"10x1"` is refused on Android and read as 0x11 on iOS |
| AndroidPlatform.ApplicationContext | android/src/main/java/com/margelo/nitro/nitrometamask/MetamaskContextHolder.kt:22 | `applicationContext` is an application context of the same package, and it is the identity on one |
| AndroidSdk.Ethereum.constructor | android/src/main/java/com/margelo/nitro/nitrometamask/HybridNitroMetamask.kt:66-75 | a new client carries the context and the dapp URL it was built with, and it has no account, chain or state yet |
| AndroidSdk.Ethereum.Observe | android/src/main/java/com/margelo/nitro/nitrometamask/HybridNitroMetamask.kt:264-267 | after a callback the client's live values are the SDK's |
| AndroidSdk.Ethereum.UpdateAccount | android/src/main/java/com/margelo/nitro/nitrometamask/HybridNitroMetamask.kt:435 | sets the selected address and changes nothing else |
| AndroidSdk.Ethereum.UpdateChainId | android/src/main/java/com/margelo/nitro/nitrometamask/HybridNitroMetamask.kt:475 | sets the chain id and changes nothing else |
| ResultNormalizer.Normalize | android/src/main/java/com/margelo/nitro/nitrometamask/HybridNitroMetamask.kt:286-298 | success exactly for `Item`, with its value; `ItemMap`/`Items` fail naming the shape and the operation; an error carries the SDK message, else its text, else the operation's fallback |
| ResultNormalizer.SignatureOf | android/src/main/java/com/margelo/nitro/nitrometamask/HybridNitroMetamask.kt:333-358 | a signature exactly when the `Item` holds a String; a non-string fails with "Invalid signature response format"; other shapes fail as `Normalize` says |
| ResultNormalizer.SdkMessageReachesCaller | android/src/main/java/com/margelo/nitro/nitrometamask/HybridNitroMetamask.kt:354-357 | an SDK message reaches the caller whatever the operation; only the fallbacks name the operation |
| MetamaskContextHolder.ContextHolder.constructor | android/src/main/java/com/margelo/nitro/nitrometamask/MetamaskContextHolder.kt:15 | the holder starts empty |
| MetamaskContextHolder.ContextHolder.Initialize | android/src/main/java/com/margelo/nitro/nitrometamask/MetamaskContextHolder.kt:21-23 | stores the application context of what it is given |
| MetamaskContextHolder.ContextHolder.Get | android/src/main/java/com/margelo/nitro/nitrometamask/MetamaskContextHolder.kt:29-35 | succeeds exactly when initialised, with the stored context; otherwise fails with the not-initialised message |
| LegacyContextHolder.ContextHolder.constructor | android/src/main/java/com/nitrometamask/MetamaskContextHolder.kt:6 | the holder starts empty |
| LegacyContextHolder.ContextHolder.Initialize | android/src/main/java/com/nitrometamask/MetamaskContextHolder.kt:8-10 | stores the application context of what it is given |
| LegacyContextHolder.ContextHolder.Get | android/src/main/java/com/nitrometamask/MetamaskContextHolder.kt:12-14 | succeeds exactly when initialised; otherwise fails with "Context not initialized" |
| DeepLink.SchemesFound | android/src/main/java/com/margelo/nitro/nitrometamask/HybridNitroMetamask.kt:152-183 | a scheme found by the scan is listed by the filter, and its `mmsdk` URI resolves to the app itself |
| DeepLink.SchemesMissed | android/src/main/java/com/margelo/nitro/nitrometamask/HybridNitroMetamask.kt:152-186 | when the scan finds nothing, no listed scheme comes home |
| DeepLink.ScanSchemes | android/src/main/java/com/margelo/nitro/nitrometamask/HybridNitroMetamask.kt:152-183 | the walk over one filter's schemes; what it finds is `SchemesFound`/`SchemesMissed`/`SchemesAllMiss` |
| DeepLink.ScanActivity | android/src/main/java/com/margelo/nitro/nitrometamask/HybridNitroMetamask.kt:143-186 | what one activity contributes: its filter's walk when it is an own browsable `VIEW` candidate with an `mmsdk` authority, else nothing |
| DeepLink.ScanActivities | android/src/main/java/com/margelo/nitro/nitrometamask/HybridNitroMetamask.kt:142-188 | the walk over the listed activities in order; what it finds is `FoundIsAccepted`/`NotFoundMeansNoneAccepted` |
| DeepLink.DetectScheme | android/src/main/java/com/margelo/nitro/nitrometamask/HybridNitroMetamask.kt:128-197 | the whole detection: a throwing activity query fails, otherwise the walk over what it lists |
| DeepLink.FoundIsAccepted | android/src/main/java/com/margelo/nitro/nitrometamask/HybridNitroMetamask.kt:142-183 | a detected scheme is the first accepted one: it comes from an own, browsable `VIEW` activity with an `mmsdk` authority and resolves home; no earlier activity and no earlier scheme of the same filter is acceptable |
| DeepLink.NotFoundMeansNoneAccepted | android/src/main/java/com/margelo/nitro/nitrometamask/HybridNitroMetamask.kt:142-193 | when detection finds nothing, no activity of the list accepts any of its schemes |
| DeepLink.SchemesAllMiss | android/src/main/java/com/margelo/nitro/nitrometamask/HybridNitroMetamask.kt:152-186 | a filter whose schemes all resolve elsewhere, without exception, yields nothing (the converse of `SchemesMissed`) |
| DeepLink.MissedCandidateSkipped | android/src/main/java/com/margelo/nitro/nitrometamask/HybridNitroMetamask.kt:142-186 | an own candidate whose schemes all resolve elsewhere is skipped, and the walk goes on to the next activity |
| DeepLink.FirstActivityWins | android/src/main/java/com/margelo/nitro/nitrometamask/HybridNitroMetamask.kt:142-183 | after any number of activities that yield nothing, the first activity that yields a scheme decides it, whatever follows |
| DeepLink.ForeignActivitiesIgnored | android/src/main/java/com/margelo/nitro/nitrometamask/HybridNitroMetamask.kt:143-149 | activities of other packages or with the wrong filters do not affect the result |
| SessionLifecycle.EffectiveUrl | android/src/main/java/com/margelo/nitro/nitrometamask/HybridNitroMetamask.kt:50 | the configured dapp URL, else the default (its use is `ClientInUseCarriesConfiguredUrl`) |
| SessionLifecycle.NeedsRebuild | android/src/main/java/com/margelo/nitro/nitrometamask/HybridNitroMetamask.kt:55 | the getter rebuilds when there is no client or it was built for another URL (its use is `Obtained`, `ConfigureChangeDropsClient`) |
| SessionLifecycle.SchemeToUse | android/src/main/java/com/margelo/nitro/nitrometamask/HybridNitroMetamask.kt:88 | an empty or absent scheme means auto-detection; any other scheme is kept as given |
| SessionLifecycle.Configured | android/src/main/java/com/margelo/nitro/nitrometamask/HybridNitroMetamask.kt:85-113 | `configure` stores the URL (default when absent) and the scheme; it either changes nothing or drops the client and its URL; the detection cache is kept or cleared |
| SessionLifecycle.Rebuilt | android/src/main/java/com/margelo/nitro/nitrometamask/HybridNitroMetamask.kt:75-76 | after a rebuild the session holds the new client and needs no rebuild |
| SessionLifecycle.Detected | android/src/main/java/com/margelo/nitro/nitrometamask/HybridNitroMetamask.kt:180 | caching a detected scheme touches neither the client nor the URL |
| SessionLifecycle.Obtained | android/src/main/java/com/margelo/nitro/nitrometamask/HybridNitroMetamask.kt:49-82 | after the getter no rebuild is needed, and the configuration is unchanged |
| SessionLifecycle.SchemeFor | android/src/main/java/com/margelo/nitro/nitrometamask/HybridNitroMetamask.kt:122-129 | the configured scheme, else the cached one, else what detection finds (`ConfiguredSchemeWins`, `DetectionRunsOnce`, `DetectedSchemeIsAccepted`) |
| SessionLifecycle.AfterSchemeLookup | android/src/main/java/com/margelo/nitro/nitrometamask/HybridNitroMetamask.kt:122-197 | a scheme lookup changes at most the detection cache |
| SessionLifecycle.ForegroundLaunch | android/src/main/java/com/margelo/nitro/nitrometamask/HybridNitroMetamask.kt:214-229 | a launch happens exactly when a scheme is known; it targets the app's own package with the URI made of that scheme and `://mmsdk` |
| SessionLifecycle.ForegroundStepped | android/src/main/java/com/margelo/nitro/nitrometamask/HybridNitroMetamask.kt:496-502 | `connectSign`'s foreground step changes the session only after a valid signature with a context, then only the detection cache, and never whether the client must be rebuilt |
| SessionLifecycle.ForegroundLaunchIf | android/src/main/java/com/margelo/nitro/nitrometamask/HybridNitroMetamask.kt:496-502 | `connectSign` launches MetaMask only after a valid signature with a context, and then exactly as `ForegroundLaunch` of the looked-up scheme |
| SessionLifecycle.ConfigureIdempotent | android/src/main/java/com/margelo/nitro/nitrometamask/HybridNitroMetamask.kt:85-113 | configuring twice with the same arguments is configuring once |
| SessionLifecycle.ConfigureUnchangedKeepsClient | android/src/main/java/com/margelo/nitro/nitrometamask/HybridNitroMetamask.kt:90-102 | re-configuring with the stored URL and scheme changes nothing |
| SessionLifecycle.ConfigureChangeDropsClient | android/src/main/java/com/margelo/nitro/nitrometamask/HybridNitroMetamask.kt:102-105 | a changed URL or scheme drops the client and forces a rebuild |
| SessionLifecycle.SchemeChangeClearsDetection | android/src/main/java/com/margelo/nitro/nitrometamask/HybridNitroMetamask.kt:95-99 | the detection cache is cleared exactly when the configured scheme changes |
| SessionLifecycle.ReconfigureKeepsBuiltClient | android/src/main/java/com/margelo/nitro/nitrometamask/HybridNitroMetamask.kt:85-113 | re-configuring a freshly built session with the same arguments keeps its client |
| SessionLifecycle.FirstDefaultConfigureDropsClient | android/src/main/java/com/margelo/nitro/nitrometamask/HybridNitroMetamask.kt:87-94 | `configure(null, null)` on a fresh bridge drops a client although the effective URL stays the same |
| SessionLifecycle.StepsKeepBuiltFor | android/src/main/java/com/margelo/nitro/nitrometamask/HybridNitroMetamask.kt:75-76 | configure, rebuild and detection keep the invariant that a stored client was built for the stored URL |
| SessionLifecycle.ClientInUseCarriesConfiguredUrl | android/src/main/java/com/margelo/nitro/nitrometamask/HybridNitroMetamask.kt:50-55 | a client that needs no rebuild carries the effective dapp URL |
| SessionLifecycle.ConfiguredSchemeWins | android/src/main/java/com/margelo/nitro/nitrometamask/HybridNitroMetamask.kt:124 | a configured scheme is returned without any lookup and without any state change |
| SessionLifecycle.DetectionRunsOnce | android/src/main/java/com/margelo/nitro/nitrometamask/HybridNitroMetamask.kt:127 | once a scheme is found, later lookups return it whatever the package manager answers |
| SessionLifecycle.FailedLookupIsRetried | android/src/main/java/com/margelo/nitro/nitrometamask/HybridNitroMetamask.kt:192-197 | a lookup that finds nothing or throws leaves the state as it was |
| SessionLifecycle.DetectedSchemeIsAccepted | android/src/main/java/com/margelo/nitro/nitrometamask/HybridNitroMetamask.kt:139-183 | a detected scheme is the first scheme, in list and filter order, that a listed activity accepts |
| SessionLifecycle.NoSchemeMeansNoneAccepted | android/src/main/java/com/margelo/nitro/nitrometamask/HybridNitroMetamask.kt:139-193 | if a lookup that did not throw finds nothing, no listed activity accepts a scheme |
| NitroMetamaskLogic.ConnectOutcome | android/src/main/java/com/margelo/nitro/nitrometamask/HybridNitroMetamask.kt:261-298 | success exactly for an `Item` with an address and a parsable chain id; otherwise the missing-address, missing-chain, invalid-format or normalised error |
| NitroMetamaskLogic.ConnectReportsHexChainId | android/src/main/java/com/margelo/nitro/nitrometamask/HybridNitroMetamask.kt:264-285 | a connect that reports `0x`-hex n returns chain id n, or the invalid-format error when n exceeds the Long range |
| NitroMetamaskLogic.PersonalSignRequest | android/src/main/java/com/margelo/nitro/nitrometamask/HybridNitroMetamask.kt:318-321 | `personal_sign` with `[address, message]`, in that order (used by `SignMessage`'s contract) |
| NitroMetamaskLogic.Envelope | android/src/main/java/com/margelo/nitro/nitrometamask/HybridNitroMetamask.kt:373-376 | the signed JSON has exactly the keys `nonce` and `exp`, with the given values |
| NitroMetamaskLogic.ItemText | android/src/main/java/com/margelo/nitro/nitrometamask/HybridNitroMetamask.kt:428 | a String value as itself, another value as its `toString()`, null as the empty text (used by `AddressFrom`) |
| NitroMetamaskLogic.AddressFrom | android/src/main/java/com/margelo/nitro/nitrometamask/HybridNitroMetamask.kt:423-469 | the address is the first of a list, the first of a JSON array text, or the text itself when it is no array or does not parse |
| NitroMetamaskLogic.JsonTextAndListAgree | android/src/main/java/com/margelo/nitro/nitrometamask/HybridNitroMetamask.kt:423-464 | a JSON array text and the list it encodes give the same address |
| NitroMetamaskLogic.ChainIdText | android/src/main/java/com/margelo/nitro/nitrometamask/HybridNitroMetamask.kt:470-480 | the chain id text is present exactly when the answer is a String `Item` |
| NitroMetamaskLogic.ParsedChainId | android/src/main/java/com/margelo/nitro/nitrometamask/HybridNitroMetamask.kt:482-494 | a present chain id text is parsed as `connect` does, and an absent one gives none |
| NitroMetamaskLogic.ConnectSignOutcome | android/src/main/java/com/margelo/nitro/nitrometamask/HybridNitroMetamask.kt:396-535 | success exactly when the signature is a String, an address is found and the chain id text parses; it carries the signature, the address and the parsed chain id; otherwise the signature error, "address undetermined" or "chain id undetermined", in that order |
| NitroMetamaskLogic.AddressOf | android/src/main/java/com/margelo/nitro/nitrometamask/HybridNitroMetamask.kt:544-560 | the state's non-empty address wins, else the selected address, and never an empty one |
| NitroMetamaskLogic.ChainIdSource | android/src/main/java/com/margelo/nitro/nitrometamask/HybridNitroMetamask.kt:567 | the snapshot's non-empty chain id, else the client's (used by `ChainIdOf`) |
| NitroMetamaskLogic.ChainIdOf | android/src/main/java/com/margelo/nitro/nitrometamask/HybridNitroMetamask.kt:562-588 | a chain id exactly when a non-empty source text parses; it is that parse and lies in the 64-bit range |
| NitroMetamaskLogic.GettersAgreeWithConnect | android/src/main/java/com/margelo/nitro/nitrometamask/HybridNitroMetamask.kt:544-588 | after a successful `connect`, the getters report the same address and chain id |
| NitroMetamaskLogic.Recorded | android/src/main/java/com/margelo/nitro/nitrometamask/HybridNitroMetamask.kt:423-476 | after a signature, a non-empty address and a non-empty chain id text replace the client's; nothing else changes, and with neither the live state is unchanged |
| NitroMetamaskLogic.RecordedShowsResult | android/src/main/java/com/margelo/nitro/nitrometamask/HybridNitroMetamask.kt:423-535 | after a successful `connectSign` the recorded selected address is the returned address, and the recorded chain id text parses to the returned chain id |
| NitroMetamaskLogic.GettersAgreeWithConnectSign | android/src/main/java/com/margelo/nitro/nitrometamask/HybridNitroMetamask.kt:423-588 | after a successful `connectSign`, on any client state without a snapshot, the getters read from what the bridge recorded return the address and chain id `connectSign` returned |
| NitroMetamask.HybridNitroMetamask.constructor | android/src/main/java/com/margelo/nitro/nitrometamask/HybridNitroMetamask.kt:22-42 | a fresh bridge has no URL, no scheme, no client and no cache |
| NitroMetamask.HybridNitroMetamask.Configure | android/src/main/java/com/margelo/nitro/nitrometamask/HybridNitroMetamask.kt:85-113 | the new state is `Configured` of the old one, and the built-for-URL invariant holds |
| NitroMetamask.HybridNitroMetamask.GetEthereum | android/src/main/java/com/margelo/nitro/nitrometamask/HybridNitroMetamask.kt:48-82 | fails without a context; keeps a current client; otherwise builds a fresh one from the holder's context; the new state is `Obtained`; the client returned carries the effective URL, and a new one has no live values |
| NitroMetamask.HybridNitroMetamask.GetDeepLinkScheme | android/src/main/java/com/margelo/nitro/nitrometamask/HybridNitroMetamask.kt:122-198 | the nested scan of activities and schemes returns `SchemeFor` and leaves `AfterSchemeLookup` |
| NitroMetamask.HybridNitroMetamask.BringAppToForeground | android/src/main/java/com/margelo/nitro/nitrometamask/HybridNitroMetamask.kt:208-245 | without a context nothing happens; otherwise the launch is `ForegroundLaunch` of the looked-up scheme |
| NitroMetamask.HybridNitroMetamask.Connect | android/src/main/java/com/margelo/nitro/nitrometamask/HybridNitroMetamask.kt:247-301 | fails without a context and changes nothing; otherwise the result is `ConnectOutcome` of the SDK's answer and its live values, the new state is `Obtained`, and the client shows those live values |
| NitroMetamask.HybridNitroMetamask.SignMessage | android/src/main/java/com/margelo/nitro/nitrometamask/HybridNitroMetamask.kt:303-361 | fails without a context and changes nothing; refuses without an account; otherwise sends `personal_sign` with `[address, message]` and the result is `SignatureOf`; the app is brought back exactly on success; the new state is `Obtained`, then `AfterSchemeLookup` when the app was brought back; the client shows the live values |
| NitroMetamask.HybridNitroMetamask.ConnectSign | android/src/main/java/com/margelo/nitro/nitrometamask/HybridNitroMetamask.kt:363-542 | fails without a context and changes nothing; otherwise signs the envelope and the result is `ConnectSignOutcome` of the three answers; the client shows the live state `live` the SDK leaves; after every valid signature, also on the failing paths, the client holds `Recorded` of `live` and the app is brought back (`ForegroundLaunchIf`, `ForegroundStepped`); without one, the state is `Obtained` and the client shows `live` |
| NitroMetamask.HybridNitroMetamask.ConnectSignWith | android/src/main/java/com/margelo/nitro/nitrometamask/HybridNitroMetamask.kt:371-535 | `connectSign` once the client is at hand: the same result; the client shows the SDK's `live`, with a signature `Recorded` of it and the foreground step; without one, `live` and no other change |
| NitroMetamask.RecordConnection | android/src/main/java/com/margelo/nitro/nitrometamask/HybridNitroMetamask.kt:423-476 | the client's live state becomes `Recorded` of the old one with the address and chain id text read back |
| NitroMetamask.ConnectSignThenGetters | android/src/main/java/com/margelo/nitro/nitrometamask/HybridNitroMetamask.kt:363-588 | a successful `connectSign` during which the SDK sets no state snapshot, then `getAddress` and `getChainId` on the recorded client, report the address and chain id `connectSign` returned |
| NitroMetamask.ConnectSignForGetters | android/src/main/java/com/margelo/nitro/nitrometamask/HybridNitroMetamask.kt:363-542 | `connectSign` fails as not initialized or returns `ConnectSignOutcome`; on success the client is reused by the next getter and holds `Recorded` of the SDK's live state |
| NitroMetamask.ReadBack | android/src/main/java/com/margelo/nitro/nitrometamask/HybridNitroMetamask.kt:544-588 | `getAddress` then `getChainId`: without a context the first fails; otherwise both answer from the same live state |
| NitroMetamask.HybridNitroMetamask.GetAddress | android/src/main/java/com/margelo/nitro/nitrometamask/HybridNitroMetamask.kt:544-560 | fails without a context and changes nothing; otherwise the address is `AddressOf` of the client's live values, the new state is `Obtained` (the getter may build the client), and the client shows those values |
| NitroMetamask.HybridNitroMetamask.GetChainId | android/src/main/java/com/margelo/nitro/nitrometamask/HybridNitroMetamask.kt:562-588 | fails without a context and changes nothing; otherwise the chain id is `ChainIdOf` of the client's live values, the new state is `Obtained`, and the client shows those values |
| LegacyNitroMetamask.LegacyConnectOutcome | android/src/main/java/com/nitrometamask/HybridNitroMetamask.kt:50-89 | succeeds exactly when the current bridge's `connect` does, with the same address and that chain id truncated to 32 bits; it fails with the same error otherwise |
| LegacyNitroMetamask.GenerationsAgreeOnIntChains | android/src/main/java/com/nitrometamask/HybridNitroMetamask.kt:60-66 | on chain ids within 32 bits both bridge generations report the same value |
| LegacyNitroMetamask.LargeChainIdWraps | android/src/main/java/com/nitrometamask/HybridNitroMetamask.kt:61-66 | chain `0x100000001` is 4294967297 on the current bridge and 1 on the legacy one |
| LegacyNitroMetamask.LegacyHybridNitroMetamask.constructor | android/src/main/java/com/nitrometamask/HybridNitroMetamask.kt:19 | the lazy client starts unbuilt |
| LegacyNitroMetamask.LegacyHybridNitroMetamask.GetEthereum | android/src/main/java/com/nitrometamask/HybridNitroMetamask.kt:19-34 | `by lazy`: a built client is reused; a failed build leaves it unbuilt; a build uses the fixed dapp URL |
| LegacyNitroMetamask.LegacyHybridNitroMetamask.Connect | android/src/main/java/com/nitrometamask/HybridNitroMetamask.kt:36-91 | fails without a context and leaves the client unbuilt; otherwise the result is `LegacyConnectOutcome` of the answer and the live values, the client is the one held or a new one with the stored context and fixed URL, and it shows those values |
| LegacyNitroMetamask.LegacyHybridNitroMetamask.SignMessage | android/src/main/java/com/nitrometamask/HybridNitroMetamask.kt:93-145 | fails without a context and leaves the client unbuilt; refuses without an account; otherwise sends `personal_sign` and returns `SignatureOf` the answer; the client is the one held or newly built, and it shows the live values |
| MetamaskConnector.ConnectorConnectOutcome | android/src/main/java/com/margelo/nitro/nitrometamask/HybridMetamaskConnector.kt:48-67 | success exactly for an `Item` with an address and a chain id, which is passed on as text; otherwise the missing-value, SDK-error or unexpected-shape failure |
| MetamaskConnector.ConnectorSignOutcome | android/src/main/java/com/margelo/nitro/nitrometamask/HybridMetamaskConnector.kt:78-90 | the signature exactly when the `Item` holds a String; otherwise the matching failure |
| MetamaskConnector.ConnectorAcceptsWhatBridgeAccepts | android/src/main/java/com/margelo/nitro/nitrometamask/HybridMetamaskConnector.kt:48-60 | every connect the bridge accepts the connector accepts too, with the same address and a chain text that parses to the bridge's number |
| MetamaskConnector.ConnectorPassesMalformedChainId | android/src/main/java/com/margelo/nitro/nitrometamask/HybridMetamaskConnector.kt:53-58 | a malformed chain id `0xzz` passes through the connector but fails in the bridge |
| MetamaskConnector.SignersAgreeOnSignatures | android/src/main/java/com/margelo/nitro/nitrometamask/HybridMetamaskConnector.kt:78-90 | connector and bridge accept exactly the same signatures, with the same value |
| MetamaskConnector.Companion.constructor | android/src/main/java/com/margelo/nitro/nitrometamask/HybridMetamaskConnector.kt:14 | no React context at first |
| MetamaskConnector.Companion.SetReactContext | android/src/main/java/com/margelo/nitro/nitrometamask/HybridMetamaskConnector.kt:16-18 | stores the given context |
| MetamaskConnector.HybridMetamaskConnector.constructor | android/src/main/java/com/margelo/nitro/nitrometamask/HybridMetamaskConnector.kt:24 | the lazy client starts unbuilt |
| MetamaskConnector.HybridMetamaskConnector.GetEthereum | android/src/main/java/com/margelo/nitro/nitrometamask/HybridMetamaskConnector.kt:24-35 | `by lazy`: reuse a built client; fail and stay unbuilt without a React context; otherwise build from its application context |
| MetamaskConnector.HybridMetamaskConnector.Connect | android/src/main/java/com/margelo/nitro/nitrometamask/HybridMetamaskConnector.kt:37-69 | fails without a context and leaves the client unbuilt; otherwise the result is `ConnectorConnectOutcome` of the answer and the live values, the client is the one held or a new one from the React context's application context, and it shows those values |
| MetamaskConnector.HybridMetamaskConnector.SignMessage | android/src/main/java/com/margelo/nitro/nitrometamask/HybridMetamaskConnector.kt:71-92 | fails without a context and leaves the client unbuilt; otherwise it asks `connectSign` for the message and returns `ConnectorSignOutcome`; the client is the one held or a new one, and shows the live state `after` the SDK leaves |
| IosSdk.TextAt | ios/HybridNitroMetamask.swift:85 | `dict[key] as? String`: the entry when it is a String, else none (used by `ExtractSignature`) |
| IosSdk.ExtractSignature | ios/HybridNitroMetamask.swift:83-93 | a bare String, else a String under `signature`, else under `result`; everything else fails with "Invalid signature response format" |
| IosSdk.SignatureKeyWins | ios/HybridNitroMetamask.swift:85 | `signature` takes precedence over `result`, and a non-string `signature` falls back to `result` |
| IosNitroMetamask.IosConnectOutcome | ios/HybridNitroMetamask.swift:14-50 | success exactly with a non-empty account and a chain id that parses; the SDK failure is rethrown; otherwise the no-address or invalid-format error |
| IosNitroMetamask.IosSignRequest | ios/HybridNitroMetamask.swift:61-76 | a `personal_sign` request with `[account, message]` exactly when the account is non-empty |
| IosNitroMetamask.IosSignOutcome | ios/HybridNitroMetamask.swift:61-94 | refuses without an account, rethrows a request error, and otherwise extracts the signature |
| IosNitroMetamask.IosConnectReportsHexChainId | ios/HybridNitroMetamask.swift:31-46 | a `0x`-hex chain id is reported as its value, or as an invalid format beyond the 64-bit range |
| IosNitroMetamask.IosMisreadsDecimalChainId | ios/HybridNitroMetamask.swift:34 | a decimal chain id `"10"` is reported as 16 |
| IosMetamaskConnector.IosConnectorConnectOutcome | ios/HybridMetamaskConnector.swift:7-21 | success exactly with an account, whose address and chain id text are returned; otherwise the failure is rethrown or "no account" |
| IosMetamaskConnector.IosConnectorSignRequest | ios/HybridMetamaskConnector.swift:23-38 | a `personal_sign` request with `[address, message]` exactly when there is an account |
| IosMetamaskConnector.IosConnectorSignOutcome | ios/HybridMetamaskConnector.swift:23-52 | refuses without an account, rethrows a request error, and otherwise extracts the signature |
| IosMetamaskConnector.IosSignersAgreeOnNonEmptyAccounts | ios/HybridMetamaskConnector.swift:25-51 | for an account with a non-empty address, the connector and the bridge send the same request and give the same result |
| IosMetamaskConnector.EmptyAddressSplitsIosSigners | ios/HybridMetamaskConnector.swift:25-32 | an empty address is sent by the connector but refused by the bridge |
| PluginText.LineTerminatorsAreSpace | app.plugin.js:17 | every line terminator is matched by JavaScript's `\s` |
| PluginText.SpaceRunEnd | app.plugin.js:17 | greedy `\s+` stops at the first non-space |
| PluginText.LineEnd | app.plugin.js:17 | `.*$` (multiline) stops at the first line terminator |
| PluginText.ImportEnd | app.plugin.js:17 | an import match covers the keyword, at least one space, and the rest of a line |
| PluginText.LastImport | app.plugin.js:17-20 | the global match's last element is an import line that starts at a line start |
| PluginText.LastImportFinds | app.plugin.js:17-19 | the global match finds something exactly when some import line exists |
| PluginText.ImportLines | app.plugin.js:17-19 | `imports.length > 0` exactly when the text has a line starting with the keyword and a space |
| PluginText.LastIndexOf | app.plugin.js:21 | `lastIndexOf` gives the last occurrence, and -1 exactly when there is none |
| PluginText.IndexOfFrom | app.plugin.js:28 | `indexOf('\n')` gives the first newline, or none |
| PluginText.FirstClassEnd | app.plugin.js:60-61 | the class-end pattern matches at its leftmost position, or nowhere |
| PluginText.ClassEndTakesWholeRun | app.plugin.js:60-63 | the captured indentation is the whole space run before the brace |
| PluginText.FirstFallback | app.plugin.js:73 | the fallback pattern (a line starting `@end`, or a line that is just `}`) matches at its leftmost position, or nowhere |
| PluginText.FallbackGroup | app.plugin.js:73-74 | the captured group is `@end` or `}`, and it is what the text holds there |
| PluginText.InsertBeforeEnd | app.plugin.js:72-75 | with no match the text is unchanged; otherwise the handler and a newline go right before the matched line |
| PluginText.Reindent | app.plugin.js:67 | the global `^  ` replacement from an index on, with the line-start state carried (`ReindentSplit` and the lemmas below) |
| PluginText.ReplaceLeadingSpaces | app.plugin.js:67 | `replace(/^  /gm, indent)` over the whole text |
| PluginText.ReindentSplit | app.plugin.js:67 | re-indenting a concatenation re-indents the parts, the second from the state the first leaves |
| PluginText.ReindentKeepsWord | app.plugin.js:67 | text without spaces or line breaks survives `replace(/^  /gm, indent)` unchanged |
| PluginText.ReindentByTwoSpaces | app.plugin.js:67 | replacing two leading spaces by two spaces is the identity |
| PluginText.ReindentKeepsInnerWord | app.plugin.js:67 | a word without spaces or line breaks survives re-indentation |
| AppPlugin.PatchedAppDelegate | app.plugin.js:3-119 | the contents the callback leaves: a Swift file with the marker or an Objective-C file naming the SDK is kept; otherwise the import step then the handler step; other languages unchanged (`SwiftPatchIdempotent`, `ObjcPatchNamesSdk`, `ObjcPatchIdempotent`, `OtherLanguagesUntouched`) |
| AppPlugin.ImportInsertionPoint | app.plugin.js:20-25 | the import goes after the last occurrence of the last import line's text; that is the line's end unless the text recurs later |
| AppPlugin.AddAfterLastImport | app.plugin.js:22-25 | the new line is spliced in after a newline at that point and is then present |
| AppPlugin.SwiftImportStep | app.plugin.js:15-33 | an existing import leaves the text alone; otherwise it is added after the last import, after the first line, or at the very top when there is no newline; afterwards it is present |
| AppPlugin.SwiftHandlerStep | app.plugin.js:58-76 | the re-indented handler and a closing brace replace the class end, or the fallback inserts the handler before `@end` or `}` |
| AppPlugin.ObjcImportStep | app.plugin.js:84-95 | the `#import` line is added after the last `#import` only when it is absent and one exists |
| AppPlugin.ObjcHandlerStep | app.plugin.js:111-114 | the handler goes right before the first `@end` or `}` line, or nowhere |
| AppPlugin.SwiftHandlerCarriesMarker | app.plugin.js:37-56 | the handler calls `MetaMaskSDK.shared.handleUrl` under any indentation |
| AppPlugin.TwoSpaceIndentKeepsTemplate | app.plugin.js:67 | a two-space class indentation leaves the handler template as written |
| AppPlugin.SwiftPatchCarriesMarker | app.plugin.js:8-76 | when the patch finds a class end or a fallback line, the result calls the SDK's URL handler |
| AppPlugin.SwiftPatchIdempotent | app.plugin.js:8-76 | patching a Swift delegate twice is patching it once |
| AppPlugin.ObjcTextsNameSdk | app.plugin.js:92 | the added import and the handler both name `MetaMaskSDK` |
| AppPlugin.ImportLineNamesSdk | app.plugin.js:79-84 | a file holding the SDK import already names the SDK |
| AppPlugin.ObjcImportStepNamesSdk | app.plugin.js:84-95 | on a file without the import line, the import step changes the text exactly when an `#import` line exists, and then names the SDK |
| AppPlugin.ObjcHandlerStepNamesSdk | app.plugin.js:111-114 | the handler step changes the text exactly when a fallback line exists, and then names the SDK |
| AppPlugin.ObjcPatchNamesSdk | app.plugin.js:77-114 | the patch leaves a file unchanged exactly when it has neither an `#import` line nor an `@end`/`}` line; otherwise the SDK is named |
| AppPlugin.ObjcPatchIdempotent | app.plugin.js:77-114 | patching an Objective-C delegate twice is patching it once |
| AppPlugin.OtherLanguagesUntouched | app.plugin.js:115-117 | other languages are returned unchanged |
| AppPlugin.ModResults.constructor | app.plugin.js:5 | the mod holds the language and contents it was given |
| AppPlugin.AddSwiftImport | app.plugin.js:15-33 | the contents become `SwiftImportStep` of the old contents |
| AppPlugin.AddSwiftHandler | app.plugin.js:58-76 | the contents become `SwiftHandlerStep` of the old contents |
| AppPlugin.WithMetamaskAppDelegate | app.plugin.js:3-119 | the contents become `PatchedAppDelegate` of the language and the old contents |

## Left out

- SDK internals. These are how the MetaMask SDKs connect, sign and update
  their state. They are oracle parameters (`Result`, `LiveState`,
  `ConnectAnswer`, `RequestAnswer`).
- `updateAccount`/`updateChainId` are assumed to set the client's selected
  address and chain id only. The SDK sources are not part of this model.
- Concurrency is not modelled: `synchronized`, `@Volatile`, the double-checked
  locking in the getter, and coroutine cancellation (`continuation.isActive`).
  Every operation runs to completion in one step.
- Callbacks posted with `Handler.post` run where they are posted. The model
  records the `startActivity` call as a `Launch` value.
- Logging is not modelled. `Uri.parse`, `Intent` flags and `startActivity`
  are reduced to the URI text and the target package.
- The conversion of chain ids to `Double` (`toDouble()`, `Double(...)`) is not
  modelled; the model keeps the integer. Values beyond 2^53 would round.
- JSON is reduced to ordered key/value pairs. The envelope's serialised text
  and `JSONArray` parsing are not modelled; the JSON array reader is a
  parameter.
- Kotlin's acceptance of non-ASCII (Unicode) digits in `toLong` (through
  `Character.digit`) is not modelled. Only ASCII digits and letters are
  read, which for Swift's `Int(_:radix:)` is exactly what it accepts.
- `NitroMetamaskPackage` registration, the TypeScript declarations and the
  Expo `withAppDelegate` wrapper are not part of this model. The wrapper's
  config object is reduced to `ModResults`.
- MetamaskConnector.ConnectorConnectOutcome: requires an SDK error to be
  present, because the source reads `result.error.message` without a null
  check.
- MetamaskConnector.ConnectorSignOutcome: requires an SDK error to be present,
  for the same reason.
- AppPlugin.PatchedAppDelegate states no contract of its own. Its properties
  are the lemmas and the step functions listed above. The same holds for the
  definitions whose rows name the lemmas about them (`ChainId.ParseChainId`
  and `IosParseChainId` state only their range, and the `DeepLink` scans,
  `SessionLifecycle.SchemeFor`, `EffectiveUrl`, `NeedsRebuild`,
  `NitroMetamaskLogic.ItemText`, `ChainIdSource`, `PersonalSignRequest`,
  `IosSdk.TextAt`, `PluginText.Reindent` and `ReplaceLeadingSpaces` none).
- MetamaskContextHolder.HolderLifecycle is a usage scenario made of asserts,
  with no contract.
- AppPlugin.SwiftPatchCarriesMarker: requires that a class end or a fallback
  line exists, because the source silently inserts nothing otherwise.
