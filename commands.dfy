/**
 * The extension commands: the resolver that turns a matched route, its path
 * parameters and the request body into one command, and `parameters_json`,
 * which gives the JSON a command carries.
 */
module Commands {
  import opened Basics
  import opened Json
  import opened Files
  import opened Parameters
  import opened AddonInstall
  import Routes

  /** A reference to a DOM element previously handed to the client. */
  datatype WebElement = WebElement(id: string)

  datatype GeckoExtensionCommand =
    | GetContext
    | SetContext(contextParameters: GeckoContextParameters)
    | XblAnonymousChildren(element: WebElement)
    | XblAnonymousByAttribute(attributeElement: WebElement, locator: XblLocatorParameters)
    | InstallAddon(install: AddonInstallParameters)
    | UninstallAddon(uninstall: AddonUninstallParameters)
    | TakeFullScreenshot
    | Print(printParameters: PrintParameters)

  /** A WebDriver error: a missing path parameter, or a body that did not decode. */
  datatype Error = InvalidArgument(message: string) | Decode(cause: DecodeError)

  const MissingElementId := "Missing elementId parameter"

  /** The route a command answers. */
  function RouteOf(c: GeckoExtensionCommand): Routes.Route
  {
    match c
    case GetContext => Routes.GetContext
    case SetContext(_) => Routes.SetContext
    case XblAnonymousChildren(_) => Routes.XblAnonymousChildren
    case XblAnonymousByAttribute(_, _) => Routes.XblAnonymousByAttribute
    case InstallAddon(_) => Routes.InstallAddon
    case UninstallAddon(_) => Routes.UninstallAddon
    case TakeFullScreenshot => Routes.TakeFullScreenshot
    case Print(_) => Routes.Print
  }

  /** `r` is the command `wrap` builds from a decoded payload, or that payload's error unchanged. */
  predicate Carries<T>(r: Result<GeckoExtensionCommand, Error>, decoded: Result<T, DecodeError>,
                       wrap: T -> GeckoExtensionCommand)
  {
    match decoded
    case Ok(v) => r == Ok(wrap(v))
    case Err(e) => r == Err(Decode(e))
  }

  /** The `From` conversion `?` applies to a decode error. */
  function AsError<T>(decoded: Result<T, DecodeError>): Result<T, Error>
  {
    match decoded
    case Ok(v) => Ok(v)
    case Err(e) => Err(Decode(e))
  }

  /**
   * `GeckoExtensionRoute::command` as a function of the filesystem it starts
   * from: the command or error, and the filesystem after it.
   */
  function Resolve(route: Routes.Route, params: map<string, string>, body: Json,
                   tempDir: OsPath, id: string, fs: FsState)
    : (out: (Result<GeckoExtensionCommand, Error>, FsState))
    ensures route != Routes.InstallAddon ==> out.1 == fs
    ensures out.0.Ok? ==> RouteOf(out.0.value) == route
    ensures route == Routes.GetContext ==> out.0 == Ok(GetContext)
    ensures route == Routes.TakeFullScreenshot ==> out.0 == Ok(TakeFullScreenshot)
    ensures route in {Routes.XblAnonymousChildren, Routes.XblAnonymousByAttribute} && "elementId" !in params ==>
      out.0 == Err(InvalidArgument(MissingElementId))
    ensures route == Routes.XblAnonymousChildren && "elementId" in params ==>
      out.0 == Ok(XblAnonymousChildren(WebElement(params["elementId"])))
    ensures route == Routes.XblAnonymousByAttribute && "elementId" in params ==>
      Carries(out.0, DecodeLocatorParameters(body), l => XblAnonymousByAttribute(WebElement(params["elementId"]), l))
    ensures route == Routes.SetContext ==> Carries(out.0, DecodeContextParameters(body), p => SetContext(p))
    ensures route == Routes.UninstallAddon ==> Carries(out.0, DecodeUninstallParameters(body), p => UninstallAddon(p))
    ensures route == Routes.Print ==> Carries(out.0, DecodePrintParameters(body), p => Print(p))
    ensures route == Routes.InstallAddon ==>
      var staged := StageAddon(body, tempDir, id, fs);
      Carries(out.0, staged.0, p => InstallAddon(p)) && out.1 == staged.1
  {
    match route
    case GetContext => (Ok(GetContext), fs)
    case SetContext => (AsError(DecodeContextParameters(body)).MapValue(p => SetContext(p)), fs)
    case XblAnonymousChildren =>
      if "elementId" !in params then (Err(InvalidArgument(MissingElementId)), fs)
      else (Ok(XblAnonymousChildren(WebElement(params["elementId"]))), fs)
    case XblAnonymousByAttribute =>
      if "elementId" !in params then (Err(InvalidArgument(MissingElementId)), fs)
      else
        var element := WebElement(params["elementId"]);
        (AsError(DecodeLocatorParameters(body)).MapValue(l => XblAnonymousByAttribute(element, l)), fs)
    case InstallAddon =>
      var staged := StageAddon(body, tempDir, id, fs);
      (AsError(staged.0).MapValue(p => InstallAddon(p)), staged.1)
    case UninstallAddon => (AsError(DecodeUninstallParameters(body)).MapValue(p => UninstallAddon(p)), fs)
    case TakeFullScreenshot => (Ok(TakeFullScreenshot), fs)
    case Print => (AsError(DecodePrintParameters(body)).MapValue(p => Print(p)), fs)
  }

  /** The resolver as the source runs it, staging an inline add-on on `fs`. */
  method Command(route: Routes.Route, params: map<string, string>, body: Json,
                 fs: FileSystem, tempDir: OsPath, id: string)
    returns (r: Result<GeckoExtensionCommand, Error>)
    modifies fs
    ensures (r, fs.State()) == Resolve(route, params, body, tempDir, id, old(fs.State()))
  {
    match route {
      case GetContext =>
        r := Ok(GetContext);
      case SetContext =>
        var p :- AsError(DecodeContextParameters(body));
        r := Ok(SetContext(p));
      case XblAnonymousChildren =>
        if "elementId" !in params {
          return Err(InvalidArgument(MissingElementId));
        }
        r := Ok(XblAnonymousChildren(WebElement(params["elementId"])));
      case XblAnonymousByAttribute =>
        if "elementId" !in params {
          return Err(InvalidArgument(MissingElementId));
        }
        var element := WebElement(params["elementId"]);
        var locator :- AsError(DecodeLocatorParameters(body));
        r := Ok(XblAnonymousByAttribute(element, locator));
      case InstallAddon =>
        var staged := DecodeAddonInstall(body, fs, tempDir, id);
        var p :- AsError(staged);
        r := Ok(InstallAddon(p));
      case UninstallAddon =>
        var p :- AsError(DecodeUninstallParameters(body));
        r := Ok(UninstallAddon(p));
      case TakeFullScreenshot =>
        r := Ok(TakeFullScreenshot);
      case Print =>
        var p :- AsError(DecodePrintParameters(body));
        r := Ok(Print(p));
    }
  }

  /** `parameters_json`: the JSON payload a command carries, if any. */
  function ParametersJson(c: GeckoExtensionCommand): (r: Option<Json>)
    ensures r.None? <==> c.GetContext? || c.XblAnonymousChildren? || c.TakeFullScreenshot?
  {
    match c
    case GetContext => None
    case InstallAddon(x) => Some(EncodeInstallParameters(x))
    case SetContext(x) => Some(EncodeContextParameters(x))
    case UninstallAddon(x) => Some(EncodeUninstallParameters(x))
    case XblAnonymousByAttribute(_, x) => Some(EncodeLocatorParameters(x))
    case XblAnonymousChildren(_) => None
    case TakeFullScreenshot => None
    case Print(x) => Some(EncodePrintParameters(x))
  }
}

/** What the resolver and `parameters_json` promise together. */
module CommandProperties {
  import opened Basics
  import opened Json
  import opened Files
  import opened Parameters
  import opened ParameterProperties
  import opened AddonInstall
  import opened Commands
  import Routes

  /**
   * Resolving the route again with the payload a resolved command carries
   * gives the same command back, and never touches the filesystem: an
   * installed add-on comes back by path, so it is not staged a second time.
   */
  lemma {:induction false} ResolvePayloadRoundTrip(route: Routes.Route, params: map<string, string>, body: Json,
                                                    tempDir: OsPath, id: string, fs: FsState,
                                                    tempDir': OsPath, id': string, fs': FsState)
    requires Resolve(route, params, body, tempDir, id, fs).0.Ok?
    requires ParametersJson(Resolve(route, params, body, tempDir, id, fs).0.value).Some?
    ensures var c := Resolve(route, params, body, tempDir, id, fs).0.value;
      Resolve(route, params, ParametersJson(c).value, tempDir', id', fs') == (Ok(c), fs')
  {
    var c := Resolve(route, params, body, tempDir, id, fs).0.value;
    var j := ParametersJson(c).value;
    match c
    case SetContext(p) => ContextRoundTrip(p);
    case XblAnonymousByAttribute(_, l) => LocatorRoundTrip(l);
    case UninstallAddon(p) => UninstallRoundTrip(p);
    case Print(p) =>
      PrintSound(body, p);
      PrintRoundTrip(p);
    case InstallAddon(p) =>
      InstallRoundTrip(p);
      assert PathForm(j) && !InlineForm(j);
      assert TemporaryOf(j.fields) == p.temporary;
  }

  /** The element of an attribute lookup travels in the URL, not in the payload. */
  lemma AttributePayloadOmitsElement(e: WebElement, l: XblLocatorParameters)
    ensures ParametersJson(XblAnonymousByAttribute(e, l)) ==
      Some(Obj(map["name" := Str(l.name), "value" := Str(l.value)]))
  {
  }

  /** The source's print test, through the resolver: an empty body gives the default options. */
  lemma ResolveDefaultPrint(params: map<string, string>, tempDir: OsPath, id: string, fs: FsState)
    ensures Resolve(Routes.Print, params, Obj(map[]), tempDir, id, fs) ==
      (Ok(Print(DefaultPrintParameters())), fs)
  {
    PrintDefaults();
  }
}
