/** `app.plugin.js`: the Expo config plugin's `withAppDelegate` callback, which
    patches the AppDelegate source so that MetaMask's deep link back into the
    app reaches the SDK. For Swift it adds `import MetaMaskSDK` and an
    `application(_:open:options:)` handler; for Objective-C the
    `#import <MetaMaskSDK/MetaMaskSDK.h>` line and an `openURL` handler. Each
    language is guarded by a marker check, so a patched file is left alone. */
module AppPlugin {
  import opened Common
  import opened PluginText

  const SdkName: string := "MetaMaskSDK"

  /** The Swift guard: the call the inserted handler makes. */
  const SwiftMarker: string := SdkName + ".shared.handleUrl"
  const SwiftImport: string := "import " + SdkName
  const ObjcImport: string := "#import <" + SdkName + "/" + SdkName + ".h>"

  /** The Swift handler template around its `MetaMaskSDK.shared.handleUrl` call. */
  const SwiftHandlerHead: string :=
    "\n  // Handle deep links from MetaMask wallet"
    + "\n  // MetaMask returns to the app via deep link after signing/connecting"
    + "\n  // Added by @novastera-oss/nitro-metamask config plugin"
    + "\n  func application("
    + "\n    _ app: UIApplication,"
    + "\n    open url: URL,"
    + "\n    options: [UIApplication.OpenURLOptionsKey: Any] = [:]"
    + "\n  ) -> Bool {"
    + "\n    // Check if this is a MetaMask deep link (host=\"mmsdk\")"
    + "\n    if let components = URLComponents(url: url, resolvingAgainstBaseURL: true),"
    + "\n       components.host == \"mmsdk\" {"
    + "\n      // Handle MetaMask deep link return"
    + "\n      "
  const SwiftHandlerTail: string :=
    "(url)"
    + "\n      return true"
    + "\n    }"
    + "\n    "
    + "\n    // Handle other deep links (e.g., React Native Linking)"
    + "\n    return false"
    + "\n  }"
  const SwiftHandler: string := SwiftHandlerHead + SwiftMarker + SwiftHandlerTail

  /** The Objective-C handler template around its `MetaMaskSDK` reference. */
  const ObjcHandlerHead: string :=
    "\n- (BOOL)application:(UIApplication *)app openURL:(NSURL *)url options:(NSDictionary<UIApplicationOpenURLOptionsKey,id> *)options {"
    + "\n  // Check if this is a MetaMask deep link (host=\"mmsdk\")"
    + "\n  NSURLComponents *components = [NSURLComponents componentsWithURL:url resolvingAgainstBaseURL:YES];"
    + "\n  if ([components.host isEqualToString:@\"mmsdk\"]) {"
    + "\n    // Handle MetaMask deep link return"
    + "\n    [["
  const ObjcHandlerTail: string :=
    " sharedInstance] handleUrl:url];"
    + "\n    return YES;"
    + "\n  }"
    + "\n  "
    + "\n  // Handle other deep links"
    + "\n  return NO;"
    + "\n}"
  const ObjcHandler: string := ObjcHandlerHead + SdkName + ObjcHandlerTail

  /** Where the import goes: right after the last occurrence, anywhere in the
      text, of the last import line's text (`lastIndexOf`). That is the end of
      the last import line unless its text occurs again further on. */
  function ImportInsertionPoint(s: string, kw: string): (k: nat)
    requires LastImport(s, kw, 0, None).Some?
    ensures var m := LastImport(s, kw, 0, None).value;
            var w := s[m.start..m.end];
            m.end <= k <= |s| && OccursAt(s, w, k - |w|)
            && (forall j :: k - |w| < j ==> !OccursAt(s, w, j))
            && ((forall j :: m.start < j ==> !OccursAt(s, w, j)) ==> k == m.end)
  {
    var m := LastImport(s, kw, 0, None).value;
    var w := s[m.start..m.end];
    assert OccursAt(s, w, m.start);
    var i := LastIndexOf(s, w).value;
    i + |w|
  }

  /** The import line inserted, on a line of its own, at the insertion point. */
  function AddAfterLastImport(s: string, kw: string, line: string): (r: string)
    requires LastImport(s, kw, 0, None).Some?
    ensures var k := ImportInsertionPoint(s, kw);
            r == s[..k] + "\n" + line + s[k..]
    ensures Contains(r, line)
  {
    var k := ImportInsertionPoint(s, kw);
    ContainsWhole(s[..k] + "\n", line, s[k..]);
    s[..k] + "\n" + line + s[k..]
  }

  /** The Swift import step: nothing if `import MetaMaskSDK` is already there;
      else after the last import line; else after the first line break, or at
      the very start when there is none. */
  function SwiftImportStep(s: string): (r: string)
    ensures Contains(s, SwiftImport) ==> r == s
    ensures !Contains(s, SwiftImport) && LastImport(s, "import", 0, None).Some? ==>
              r == AddAfterLastImport(s, "import", SwiftImport)
    ensures !Contains(s, SwiftImport) && LastImport(s, "import", 0, None).None? && IndexOfFrom(s, '\n', 0).None? ==>
              r == SwiftImport + "\n" + s
    ensures !Contains(s, SwiftImport) && LastImport(s, "import", 0, None).None? && IndexOfFrom(s, '\n', 0).Some? ==>
              var k := IndexOfFrom(s, '\n', 0).value + 1;
              r == s[..k] + SwiftImport + "\n" + s[k..]
    ensures Contains(r, SwiftImport)
  {
    if Contains(s, SwiftImport) then s
    else if LastImport(s, "import", 0, None).Some? then AddAfterLastImport(s, "import", SwiftImport)
    else match IndexOfFrom(s, '\n', 0)
      case None =>
        ContainsWhole("", SwiftImport, "\n" + s);
        assert "" + SwiftImport + ("\n" + s) == SwiftImport + "\n" + s;
        SwiftImport + "\n" + s
      case Some(i) =>
        ContainsWhole(s[..i + 1], SwiftImport, "\n" + s[i + 1..]);
        assert s[..i + 1] + SwiftImport + ("\n" + s[i + 1..]) == s[..i + 1] + SwiftImport + "\n" + s[i + 1..];
        s[..i + 1] + SwiftImport + "\n" + s[i + 1..]
  }

  /** The Swift handler step. At the leftmost class-end match the `\s` run
      before the brace is replaced by the handler, reindented by that run, a
      line break, the run and the brace: the handler, its leading two-space
      indents replaced by the run, is inserted in front of the run and
      everything else is kept. Without a match the handler goes before the
      first line beginning with "@end" or equal to "}". */
  function SwiftHandlerStep(s: string): (r: string)
    ensures FirstClassEnd(s, 0).Some? ==>
              var p := FirstClassEnd(s, 0).value;
              var indent := s[p..SpaceRunEnd(s, p)];
              r == s[..p] + ReplaceLeadingSpaces(SwiftHandler, indent) + "\n" + s[p..]
    ensures FirstClassEnd(s, 0).None? ==> r == InsertBeforeEnd(s, SwiftHandler)
  {
    match FirstClassEnd(s, 0)
    case Some(p) =>
      var q := SpaceRunEnd(s, p);
      var indent := s[p..q];
      assert s[p..] == indent + "}" + s[q + 1..];
      s[..p] + ReplaceLeadingSpaces(SwiftHandler, indent) + "\n" + indent + "}" + s[q + 1..]
    case None => InsertBeforeEnd(s, SwiftHandler)
  }

  /** The Objective-C import step: only when the line is absent and some
      `#import` line exists. */
  function ObjcImportStep(s: string): (r: string)
    ensures Contains(s, ObjcImport) || LastImport(s, "#import", 0, None).None? ==> r == s
    ensures !Contains(s, ObjcImport) && LastImport(s, "#import", 0, None).Some? ==>
              r == AddAfterLastImport(s, "#import", ObjcImport)
  {
    if !Contains(s, ObjcImport) && LastImport(s, "#import", 0, None).Some? then
      AddAfterLastImport(s, "#import", ObjcImport)
    else s
  }

  /** The Objective-C handler step. */
  function ObjcHandlerStep(s: string): (r: string)
    ensures FirstFallback(s, 0).None? ==> r == s
    ensures FirstFallback(s, 0).Some? ==>
              var p := FirstFallback(s, 0).value;
              r == s[..p] + ObjcHandler + "\n" + s[p..]
  {
    InsertBeforeEnd(s, ObjcHandler)
  }

  /** The contents the callback leaves in `modResults.contents`. */
  function PatchedAppDelegate(language: string, contents: string): string {
    if language == "swift" then
      if Contains(contents, SwiftMarker) then contents
      else SwiftHandlerStep(SwiftImportStep(contents))
    else if language == "objc" then
      if Contains(contents, SdkName) then contents
      else ObjcHandlerStep(ObjcImportStep(contents))
    else contents
  }

  lemma MarkerIsPlain()
    ensures |SwiftMarker| > 0 && Plain(SwiftMarker)
    ensures SwiftHandlerTail[0] == '('
  {
  }

  /** The marker sits in the Swift handler however it is reindented. */
  lemma SwiftHandlerCarriesMarker(indent: string)
    ensures Contains(SwiftHandler, SwiftMarker)
    ensures Contains(ReplaceLeadingSpaces(SwiftHandler, indent), SwiftMarker)
  {
    ContainsWhole(SwiftHandlerHead, SwiftMarker, SwiftHandlerTail);
    MarkerIsPlain();
    ReindentKeepsInnerWord(SwiftHandlerHead, SwiftMarker, SwiftHandlerTail, indent);
  }

  /** A project indented by two spaces gets the template verbatim. */
  lemma TwoSpaceIndentKeepsTemplate()
    ensures ReplaceLeadingSpaces(SwiftHandler, "  ") == SwiftHandler
  {
    ReindentByTwoSpaces(SwiftHandler, 0, true);
  }

  /** Whenever the Swift patch finds a place for the handler, the result
      carries the marker. */
  lemma SwiftPatchCarriesMarker(contents: string)
    requires !Contains(contents, SwiftMarker)
    requires var s := SwiftImportStep(contents);
             FirstClassEnd(s, 0).Some? || FirstFallback(s, 0).Some?
    ensures Contains(PatchedAppDelegate("swift", contents), SwiftMarker)
  {
    var s := SwiftImportStep(contents);
    match FirstClassEnd(s, 0)
    case Some(p) =>
      var h := ReplaceLeadingSpaces(SwiftHandler, s[p..SpaceRunEnd(s, p)]);
      SwiftHandlerCarriesMarker(s[p..SpaceRunEnd(s, p)]);
      ContainsInside(s[..p], h, "\n" + s[p..], SwiftMarker);
      assert s[..p] + h + ("\n" + s[p..]) == s[..p] + h + "\n" + s[p..];
    case None =>
      var p := FirstFallback(s, 0).value;
      SwiftHandlerCarriesMarker("");
      ContainsInside(s[..p], SwiftHandler, "\n" + s[p..], SwiftMarker);
      assert s[..p] + SwiftHandler + ("\n" + s[p..]) == s[..p] + SwiftHandler + "\n" + s[p..];
  }

  /** Applying the Swift patch twice is applying it once: after an insertion
      the marker guard stops it, and without one the import is present and
      the text offers no place for the handler. */
  lemma SwiftPatchIdempotent(contents: string)
    ensures PatchedAppDelegate("swift", PatchedAppDelegate("swift", contents)) == PatchedAppDelegate("swift", contents)
  {
    if !Contains(contents, SwiftMarker) {
      var s := SwiftImportStep(contents);
      if FirstClassEnd(s, 0).Some? || FirstFallback(s, 0).Some? {
        SwiftPatchCarriesMarker(contents);
      } else {
        assert PatchedAppDelegate("swift", contents) == s;
        assert SwiftImportStep(s) == s;
      }
    }
  }

  /** Both inserted Objective-C texts mention the SDK. */
  lemma ObjcTextsNameSdk()
    ensures Contains(ObjcImport, SdkName)
    ensures Contains(ObjcHandler, SdkName)
  {
    ContainsWhole("#import <", SdkName, "/" + SdkName + ".h>");
    assert "#import <" + SdkName + ("/" + SdkName + ".h>") == ObjcImport;
    ContainsWhole(ObjcHandlerHead, SdkName, ObjcHandlerTail);
  }

  /** A text holding the Objective-C import line names the SDK. */
  lemma ImportLineNamesSdk(contents: string)
    requires Contains(contents, ObjcImport)
    ensures Contains(contents, SdkName)
  {
    ObjcTextsNameSdk();
    ContainsTransitive(contents, ObjcImport, SdkName);
  }

  /** On a file that does not yet name the SDK, the Objective-C patch leaves
      the text unchanged exactly when it finds neither an `#import` line nor a
      line starting `@end` or consisting of `}`; otherwise the SDK is named. */
  lemma ObjcPatchNamesSdk(contents: string)
    requires !Contains(contents, SdkName)
    ensures var r := PatchedAppDelegate("objc", contents);
            (r == contents <==> LastImport(contents, "#import", 0, None).None? && FirstFallback(contents, 0).None?)
            && (r != contents ==> Contains(r, SdkName))
  {
    var s := ObjcImportStep(contents);
    if Contains(contents, ObjcImport) {
      ImportLineNamesSdk(contents);
      assert false;
    }
    ObjcImportStepNamesSdk(contents);
    ObjcHandlerStepNamesSdk(s);
  }

  /** The import step on a file without the import line either finds no
      `#import` line or names the SDK. */
  lemma ObjcImportStepNamesSdk(contents: string)
    requires !Contains(contents, ObjcImport)
    ensures var s := ObjcImportStep(contents);
            (s == contents <==> LastImport(contents, "#import", 0, None).None?)
            && (s != contents ==> Contains(s, SdkName))
  {
    if LastImport(contents, "#import", 0, None).Some? {
      ObjcTextsNameSdk();
      var k := ImportInsertionPoint(contents, "#import");
      ContainsInside(contents[..k] + "\n", ObjcImport, contents[k..], SdkName);
      assert Contains(ObjcImportStep(contents), SdkName);
    }
  }

  /** The handler step either finds no fallback line or names the SDK. */
  lemma ObjcHandlerStepNamesSdk(s: string)
    ensures var r := ObjcHandlerStep(s);
            (r == s <==> FirstFallback(s, 0).None?)
            && (r != s ==> Contains(r, SdkName))
  {
    match FirstFallback(s, 0)
    case Some(p) =>
      ObjcTextsNameSdk();
      ContainsInside(s[..p], ObjcHandler, "\n" + s[p..], SdkName);
      assert s[..p] + ObjcHandler + ("\n" + s[p..]) == s[..p] + ObjcHandler + "\n" + s[p..];
      assert |ObjcHandlerStep(s)| > |s|;
    case None =>
  }

  /** Applying the Objective-C patch twice is applying it once. */
  lemma ObjcPatchIdempotent(contents: string)
    ensures PatchedAppDelegate("objc", PatchedAppDelegate("objc", contents)) == PatchedAppDelegate("objc", contents)
  {
    if !Contains(contents, SdkName) {
      ObjcPatchNamesSdk(contents);
    }
  }

  /** Other languages pass through untouched. */
  lemma OtherLanguagesUntouched(language: string, contents: string)
    requires language != "swift" && language != "objc"
    ensures PatchedAppDelegate(language, contents) == contents
  {
  }

  /** The callback's view of the mod: the file's language and its contents. */
  class ModResults {
    const language: string
    var contents: string

    constructor(language: string, contents: string)
      ensures this.language == language && this.contents == contents
    {
      this.language := language;
      this.contents := contents;
    }
  }

  /** The Swift import step on the mod's contents. */
  method AddSwiftImport(mod: ModResults)
    modifies mod
    ensures mod.contents == SwiftImportStep(old(mod.contents))
  {
    if !Contains(mod.contents, SwiftImport) {
      var imports := LastImport(mod.contents, "import", 0, None);
      if imports.Some? {
        mod.contents := AddAfterLastImport(mod.contents, "import", SwiftImport);
      } else {
        var firstLine := IndexOfFrom(mod.contents, '\n', 0);
        var k := if firstLine.Some? then firstLine.value + 1 else 0;
        mod.contents := mod.contents[..k] + SwiftImport + "\n" + mod.contents[k..];
      }
    }
  }

  /** The Swift handler step on the mod's contents. */
  method AddSwiftHandler(mod: ModResults)
    modifies mod
    ensures mod.contents == SwiftHandlerStep(old(mod.contents))
  {
    var s := mod.contents;
    var classEnd := FirstClassEnd(s, 0);
    if classEnd.Some? {
      var p := classEnd.value;
      assert ClassEndAt(s, p);
      var q := SpaceRunEnd(s, p);
      var indent := s[p..q];
      assert s[p..] == indent + "}" + s[q + 1..];
      mod.contents := s[..p] + ReplaceLeadingSpaces(SwiftHandler, indent) + "\n" + indent + "}" + s[q + 1..];
    } else {
      mod.contents := InsertBeforeEnd(s, SwiftHandler);
    }
  }

  /** The `withAppDelegate` callback: reassigns `contents` step by step under
      the same early returns. */
  method WithMetamaskAppDelegate(mod: ModResults)
    modifies mod
    ensures mod.contents == PatchedAppDelegate(mod.language, old(mod.contents))
  {
    if mod.language == "swift" {
      if Contains(mod.contents, SwiftMarker) {
        return;
      }
      AddSwiftImport(mod);
      AddSwiftHandler(mod);
    } else if mod.language == "objc" {
      if Contains(mod.contents, SdkName) {
        return;
      }
      if !Contains(mod.contents, ObjcImport) {
        var imports := LastImport(mod.contents, "#import", 0, None);
        if imports.Some? {
          mod.contents := AddAfterLastImport(mod.contents, "#import", ObjcImport);
        }
      }
      mod.contents := InsertBeforeEnd(mod.contents, ObjcHandler);
    }
  }
}
