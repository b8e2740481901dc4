/**
 * How `getFetch` and `getWebSocketImpl` pick the fetch function and the
 * WebSocket implementation, including the `module#export` specifiers.
 */
module Imports {
  import opened Wrappers
  import opened JsString
  import opened LoaderOptions

  /**
   * The import function: the module's own `asyncImport` (`import()`), its
   * `syncImport` (`require`), or another one a caller of `getExecutor`
   * passes, compared by identity.
   */
  datatype ImportFn = AsyncImport | SyncImport | OtherImport(id: nat)

  /** What a specifier names: a module, and maybe one of its exports. */
  datatype ImportTarget = ImportTarget(moduleName: string, exportName: Option<string>)

  /**
   * `const [moduleName, exportName] = specifier.split('#')`, with the export
   * used only when it is truthy: the module name is the text before the
   * first `#`, the export name the text between the first and the second.
   */
  function ParseSpecifier(spec: string): (r: ImportTarget)
    ensures '#' !in r.moduleName && StartsWith(spec, r.moduleName)
    ensures r.moduleName == spec <==> '#' !in spec
    ensures '#' in spec ==> |r.moduleName| < |spec| && spec[|r.moduleName|] == '#'
    ensures r.exportName.Some? ==>
      r.exportName.value != "" && '#' !in r.exportName.value &&
      StartsWith(spec, r.moduleName + "#" + r.exportName.value)
    ensures r.exportName.Some? ==>
      |spec| == |r.moduleName| + 1 + |r.exportName.value| || spec[|r.moduleName| + 1 + |r.exportName.value|] == '#'
    ensures r.exportName.None? <==>
      '#' !in spec || |spec| == |r.moduleName| + 1 || spec[|r.moduleName| + 1] == '#'
  {
    var parts := Split(spec, '#');
    JoinStartsWith(parts, '#');
    if |parts| == 1 then
      ImportTarget(parts[0], None)
    else
      var tail := Join(parts[1..], '#');
      assert spec == parts[0] + "#" + tail;
      assert spec[..|parts[0]|] == parts[0] && spec[|parts[0]|] == '#';
      JoinStartsWith(parts[1..], '#');
      assert parts[1..][0] == parts[1];
      assert |parts| > 2 ==> tail == parts[1] + "#" + Join(parts[2..], '#');
      assert spec[|parts[0]| + 1..] == tail;
      ImportTarget(parts[0], if parts[1] != "" then Some(parts[1]) else None)
  }

  /** A specifier without `#` names the whole module. */
  lemma ParseModuleOnly(a: string)
    requires '#' !in a
    ensures ParseSpecifier(a) == ImportTarget(a, None)
  {
    SplitWhole(a, '#');
  }

  /**
   * `module#export`, optionally followed by more `#` parts, names that
   * export: `ParseSpecifier` undoes writing a specifier.
   */
  lemma ParseModuleExport(a: string, b: string, t: string)
    requires '#' !in a && '#' !in b && b != ""
    requires t == "" || t[0] == '#'
    ensures ParseSpecifier(a + "#" + b + t) == ImportTarget(a, Some(b))
  {
    SplitAfterPart(a, '#', b + t);
    assert a + "#" + b + t == a + ['#'] + (b + t);
    if t == "" {
      assert b + t == b;
      SplitWhole(b, '#');
    } else {
      assert b + t == b + ['#'] + t[1..];
      SplitAfterPart(b, '#', t[1..]);
    }
  }

  /**
   * `module#` and `module##…` have no truthy export: they name the whole
   * module before the first `#`.
   */
  lemma ParseModuleEmptyExport(a: string, t: string)
    requires '#' !in a
    requires t == "" || t[0] == '#'
    ensures ParseSpecifier(a + "#" + t) == ImportTarget(a, None)
  {
    SplitAfterPart(a, '#', t);
    assert a + "#" + t == a + ['#'] + t;
    if t == "" {
      SplitWhole(t, '#');
    } else {
      assert t == [] + ['#'] + t[1..];
      SplitAfterPart([], '#', t[1..]);
    }
  }

  /** The fetch function `getFetch` resolves to. */
  datatype FetchFn =
    | DefaultAsyncFetch
    | DefaultSyncFetch
    | GivenFetch(id: nat)
    | ImportedFetch(importFn: ImportFn, target: ImportTarget)

  /** `defaultAsyncFetch` exactly when the import function is `asyncImport`. */
  function DefaultFetch(importFn: ImportFn): FetchFn {
    if importFn == AsyncImport then DefaultAsyncFetch else DefaultSyncFetch
  }

  /**
   * `getFetch(customFetch, importFn)`: a non-empty specifier string is
   * imported, a function is used as given, and otherwise the default fetch
   * matching the import function is taken.
   */
  function GetFetch(customFetch: Option<CustomFetch>, importFn: ImportFn): (r: FetchFn)
    ensures r.ImportedFetch? <==>
      customFetch.Some? && customFetch.value.FetchSpecifier? && customFetch.value.specifier != ""
    ensures r.ImportedFetch? ==> r.importFn == importFn && r.target == ParseSpecifier(customFetch.value.specifier)
    ensures r.GivenFetch? <==> customFetch.Some? && customFetch.value.FetchFunction?
    ensures r.GivenFetch? ==> r.id == customFetch.value.id
    ensures r.DefaultAsyncFetch? || r.DefaultSyncFetch? ==> r == DefaultFetch(importFn)
  {
    match customFetch
    case Some(FetchSpecifier(spec)) =>
      if spec != "" then ImportedFetch(importFn, ParseSpecifier(spec)) else DefaultFetch(importFn)
    case Some(FetchFunction(id)) => GivenFetch(id)
    case None => DefaultFetch(importFn)
  }

  /** The WebSocket implementation `getWebSocketImpl` resolves to. */
  datatype WebSocketImpl =
    | IsomorphicWebSocket
    | GivenWebSocket(id: nat)
    | ImportedWebSocket(importFn: ImportFn, target: ImportTarget)

  /**
   * `getWebSocketImpl(importFn, options)`: any specifier string, even an
   * empty one, is imported; a class is used as given; without the option
   * the `isomorphic-ws` default is taken.
   */
  function GetWebSocketImpl(importFn: ImportFn, webSocketImpl: Option<WebSocketImplOption>): (r: WebSocketImpl)
    ensures r.ImportedWebSocket? <==> webSocketImpl.Some? && webSocketImpl.value.WebSocketSpecifier?
    ensures r.ImportedWebSocket? ==> r.importFn == importFn && r.target == ParseSpecifier(webSocketImpl.value.specifier)
    ensures r.GivenWebSocket? <==> webSocketImpl.Some? && webSocketImpl.value.WebSocketClass?
    ensures r.GivenWebSocket? ==> r.id == webSocketImpl.value.id
    ensures r == IsomorphicWebSocket <==> webSocketImpl.None?
  {
    match webSocketImpl
    case Some(WebSocketSpecifier(spec)) => ImportedWebSocket(importFn, ParseSpecifier(spec))
    case Some(WebSocketClass(id)) => GivenWebSocket(id)
    case None => IsomorphicWebSocket
  }

  /**
   * The two resolvers agree on every non-empty specifier, which both import
   * with the same target, and they part on `""`: `getFetch` falls back to
   * the default fetch, `getWebSocketImpl` imports the module named `""`.
   */
  lemma SpecifierResolution(spec: string, importFn: ImportFn)
    ensures var f := GetFetch(Some(FetchSpecifier(spec)), importFn);
      var w := GetWebSocketImpl(importFn, Some(WebSocketSpecifier(spec)));
      (spec != "" ==> f.ImportedFetch? && w.ImportedWebSocket? && f.target == w.target && f.importFn == importFn) &&
      (spec == "" ==> f == DefaultFetch(importFn) && w == ImportedWebSocket(importFn, ImportTarget("", None)))
  {
    if spec == "" {
      ParseModuleOnly("");
    }
  }

  /** Without a custom fetch, the default follows the import function: async only for `asyncImport`. */
  lemma DefaultFetchFollowsImport(customFetch: Option<CustomFetch>, importFn: ImportFn)
    requires customFetch.None? || customFetch == Some(FetchSpecifier(""))
    ensures GetFetch(customFetch, importFn) == DefaultAsyncFetch <==> importFn == AsyncImport
    ensures GetFetch(customFetch, importFn) == DefaultSyncFetch <==> importFn != AsyncImport
  {
  }
}
